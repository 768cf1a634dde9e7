/** The phone transcript: caller rows are written at once, the assistant's row only
    when it is known what the caller heard. */
module PhoneTranscript {
  import opened Common
  import opened Text

  datatype Row = Caller(text: Str) | Assistant(text: Str) | Other(text: Str)

  datatype Delivery = Complete | Interrupted | NotDelivered

  /** " [caller interrupted]" and "[not heard by caller]". */
  const INTERRUPTED_MARKER: Str := [91, 99, 97, 108, 108, 101, 114, 32, 105, 110, 116, 101, 114, 114, 117, 112, 116,
                                    101, 100, 93]
  const NOT_HEARD_MARKER: Str :=
    [91, 110, 111, 116, 32, 104, 101, 97, 114, 100, 32, 98, 121, 32, 99, 97, 108, 108, 101, 114, 93]

  function DeliveredContent(reply: Str, status: Delivery, delivered: Str): Str {
    if status.Complete? then reply
    else if status.Interrupted? && Trim(delivered) != [] then Trim(delivered) + [SPACE] + INTERRUPTED_MARKER
    else NOT_HEARD_MARKER
  }

  /** The transcript holds no more of a reply than was heard: the whole of it only when it
      was delivered, and otherwise the delivered words, if any, and a marker. */
  lemma HeardOnly(reply: Str, status: Delivery, delivered: Str)
    ensures var content, words := DeliveredContent(reply, status, delivered), Trim(delivered);
      && (status == Complete ==> content == reply)
      && (status == Interrupted && words != [] ==>
            |content| == |words| + 1 + |INTERRUPTED_MARKER| && words <= content
            && content[|words| + 1..] == INTERRUPTED_MARKER)
      && (status == NotDelivered || (status == Interrupted && words == []) ==> content == NOT_HEARD_MARKER)
  {
  }

  datatype Pending = Pending(reply: Str, turn: Option<nat>)

  function LastAssistant(rows: seq<Row>): Option<nat> {
    if rows == [] then None
    else if rows[|rows| - 1].Assistant? then Some(|rows| - 1)
    else LastAssistant(rows[..|rows| - 1])
  }

  lemma {:induction false} LastAssistantInRange(rows: seq<Row>)
    ensures LastAssistant(rows).Some? ==>
      LastAssistant(rows).value < |rows| && rows[LastAssistant(rows).value].Assistant?
  {
    if rows != [] && !rows[|rows| - 1].Assistant? { LastAssistantInRange(rows[..|rows| - 1]); }
  }

  /** Writes go through one promise chain, so they happen in the order they were queued. */
  class DeferredAssistantStore {
    var pending: Option<Pending>
    var written: seq<Row>

    constructor ()
      ensures pending.None? && written == []
    {
      pending, written := None, [];
    }

    method AppendMessages(rows: seq<Row>)
      modifies this
      ensures var at := LastAssistant(rows);
              if at.None? then written == old(written) + rows && pending == old(pending)
              else at.value < |rows| && pending == Some(Pending(rows[at.value].text, None))
                   && written == old(written) + rows[..at.value] + rows[at.value + 1..]
    {
      LastAssistantInRange(rows);
      var at := LastAssistant(rows);
      if at.Some? {
        pending := Some(Pending(rows[at.value].text, None));
        written := written + rows[..at.value] + rows[at.value + 1..];
      } else {
        written := written + rows;
      }
    }

    method BindPending(turn: nat)
      modifies `pending
      ensures pending == if old(pending).Some? && old(pending).value.turn.None?
                         then Some(old(pending).value.(turn := Some(turn))) else old(pending)
    {
      if pending.Some? && pending.value.turn.None? { pending := Some(pending.value.(turn := Some(turn))); }
    }

    predicate Matches(turn: Option<nat>)
      reads this
    {
      pending.Some? && (turn.None? || pending.value.turn == turn)
    }

    /** Writes the held row, if it is the one asked for; a second report finds nothing. */
    method Resolve(turn: Option<nat>, status: Delivery, delivered: Str)
      modifies this
      ensures if old(Matches(turn))
              then pending.None?
                   && written ==
                      old(written) + [Assistant(DeliveredContent(old(pending).value.reply, status, delivered))]
              else pending == old(pending) && written == old(written)
    {
      if !Matches(turn) { return; }
      written := written + [Assistant(DeliveredContent(pending.value.reply, status, delivered))];
      pending := None;
    }
  }

  // ---- the phone handler that drives it ---------------------------------------------------------

  /** How one run of the agent ended: with a reply, or thrown, before or after its rows
      were persisted. */
  datatype Run = Replied(reply: Str) | ThrewEarly | ThrewLate(reply: Str)

  /** One persisted turn; `content` is what was written for the reply. */
  datatype Turn = Turn(id: nat, said: Str, reply: Str, content: Option<Str>)

  function RowsOf(turns: seq<Turn>): seq<Row> {
    if turns == [] then []
    else
      var last := turns[|turns| - 1];
      RowsOf(turns[..|turns| - 1]) + [Caller(last.said)]
      + if last.content.Some? then [Assistant(last.content.value)] else []
  }

  ghost predicate Truthful(t: Turn) {
    t.content.Some? ==> exists status, delivered :: t.content.value == DeliveredContent(t.reply, status, delivered)
  }

  class PhoneTurnHandler {
    const store: DeferredAssistantStore
    ghost var turns: seq<Turn>

    ghost predicate Valid()
      reads this, store
    {
      && store.written == RowsOf(turns) && (forall k :: 0 <= k < |turns| ==> Truthful(turns[k]))
      && (forall k :: 0 <= k < |turns| - 1 ==> turns[k].content.Some?)
      && (store.pending.Some? <==> turns != [] && turns[|turns| - 1].content.None?)
      && (store.pending.Some? ==> Holds(store.pending.value, turns[|turns| - 1]))
    }

    static ghost predicate Holds(p: Pending, t: Turn) { p.reply == t.reply && (p.turn.None? || p.turn.value == t.id) }

    constructor ()
      ensures Valid() && fresh(store) && turns == []
    {
      store := new DeferredAssistantStore();
      turns := [];
    }

    /** The held row is written with what was heard of it. */
    method Settle(turn: Option<nat>, status: Delivery, delivered: Str)
      requires Valid()
      modifies this, store
      ensures Valid() && |turns| == |old(turns)|
      ensures if old(store.Matches(turn))
              then store.pending.None? && turns == Settled(old(turns), status, delivered)
              else turns == old(turns) && store.pending == old(store.pending)
    {
      ghost var held := store.Matches(turn);
      store.Resolve(turn, status, delivered);
      if held {
        SettledRows(turns, status, delivered);
        turns := Settled(turns, status, delivered);
      }
    }

    method HandleTurn(utterance: Str, id: nat, run: Run)
      requires Valid() && forall k :: 0 <= k < |turns| ==> turns[k].id != id
      modifies this, store
      ensures Valid()
      ensures var before := if old(store.pending).Some? then Settled(old(turns), NotDelivered, []) else old(turns);
              if run.ThrewEarly? then turns == before
              else turns == before + [Turn(id, utterance, run.reply, None)] && store.pending.Some?
    {
      hide RowsOf;
      hide Truthful;
      if store.pending.Some? { Settle(None, NotDelivered, []); }
      if run.ThrewEarly? { return; }
      Persist(utterance, id, run.reply);
      if run.Replied? { store.BindPending(id); }
    }

    /** The caller's row is written, the assistant's held. */
    method Persist(utterance: Str, id: nat, reply: Str)
      requires Valid() && store.pending.None?
      modifies this, store
      ensures Valid() && turns == old(turns) + [Turn(id, utterance, reply, None)]
      ensures store.pending == Some(Pending(reply, None))
    {
      hide RowsOf;
      var rows := [Caller(utterance), Assistant(reply)];
      assert LastAssistant(rows) == Some(1);
      store.AppendMessages(rows);
      assert rows[..1] == [Caller(utterance)] && rows[2..] == [];
      assert store.written == old(store.written) + [Caller(utterance)];
      OneMoreTurn(turns, Turn(id, utterance, reply, None));
      turns := turns + [Turn(id, utterance, reply, None)];
    }

    /** A report about any turn but the held one changes nothing. */
    method RecordDelivery(id: nat, status: Delivery, delivered: Str)
      requires Valid()
      modifies this, store
      ensures Valid()
      ensures if old(store.Matches(Some(id)))
              then old(turns) != [] && old(turns)[|old(turns)| - 1].id == id
                && turns == Settled(old(turns), status, delivered)
              else turns == old(turns)
    {
      Settle(Some(id), status, delivered);
    }

    /** At the end of the call every reply has been written. */
    method Close()
      requires Valid()
      modifies this, store
      ensures Valid() && (forall k :: 0 <= k < |turns| ==> turns[k].content.Some?)
      ensures turns == if old(store.pending).Some? then Settled(old(turns), NotDelivered, []) else old(turns)
    {
      if store.pending.Some? { Settle(None, NotDelivered, []); }
    }

    /** What the store holds, at any time of the call: the caller's words and the reply,
        turn by turn and each once; only the last reply may still be missing. */
    lemma WrittenInTurns()
      requires Valid()
      ensures Alternates(store.written, turns) && Replies(store.written) == Contents(turns)
      ensures store.pending.None? ==> |store.written| == 2 * |turns| && |Replies(store.written)| == |turns|
    {
      EachReplyOnce(turns);
      RowsAlternate(turns);
    }
  }

  ghost predicate Alternates(rows: seq<Row>, turns: seq<Turn>) {
    && |rows| == 2 * |turns| - (if turns != [] && turns[|turns| - 1].content.None? then 1 else 0)
    && forall k :: 0 <= k < |turns| ==> InItsPlace(rows, turns[k], k)
  }

  predicate InItsPlace(rows: seq<Row>, t: Turn, k: nat) {
    && 2 * k < |rows| && rows[2 * k] == Caller(t.said)
    && (t.content.Some? ==> 2 * k + 1 < |rows| && rows[2 * k + 1] == Assistant(t.content.value))
  }

  lemma {:induction false} RowsAlternate(turns: seq<Turn>)
    requires forall k :: 0 <= k < |turns| - 1 ==> turns[k].content.Some?
    ensures Alternates(RowsOf(turns), turns)
  {
    if turns != [] {
      var init := turns[..|turns| - 1];
      RowsAlternate(init);
      forall k | 0 <= k < |turns| ensures InItsPlace(RowsOf(turns), turns[k], k) {
        if k < |init| { assert InItsPlace(RowsOf(init), init[k], k); }
      }
    }
  }

  lemma OneMoreTurn(turns: seq<Turn>, t: Turn)
    requires t.content.None?
    ensures RowsOf(turns + [t]) == RowsOf(turns) + [Caller(t.said)]
  {
    assert (turns + [t])[..|turns|] == turns;
  }

  /** The last turn, with its reply accounted for. */
  ghost function Settled(turns: seq<Turn>, status: Delivery, delivered: Str): seq<Turn>
    requires turns != []
  {
    var last := turns[|turns| - 1];
    turns[..|turns| - 1] + [last.(content := Some(DeliveredContent(last.reply, status, delivered)))]
  }

  lemma {:induction false} SettledRows(turns: seq<Turn>, status: Delivery, delivered: Str)
    requires turns != [] && turns[|turns| - 1].content.None?
    ensures var last := turns[|turns| - 1];
            RowsOf(Settled(turns, status, delivered))
            == RowsOf(turns) + [Assistant(DeliveredContent(last.reply, status, delivered))]
    ensures Truthful(Settled(turns, status, delivered)[|turns| - 1])
  {
    var after := Settled(turns, status, delivered);
    assert after[..|turns| - 1] == turns[..|turns| - 1];
  }

  function Replies(rows: seq<Row>): seq<Str> {
    if rows == [] then []
    else Replies(rows[..|rows| - 1]) + if rows[|rows| - 1].Assistant? then [rows[|rows| - 1].text] else []
  }

  function Contents(turns: seq<Turn>): seq<Str> {
    if turns == [] then []
    else
      var last := turns[|turns| - 1];
      Contents(turns[..|turns| - 1]) + if last.content.Some? then [last.content.value] else []
  }

  /** In what was written, the assistant's rows are the turns' contents: each reply
      once, in order, and after the words it answers. */
  lemma {:induction false} EachReplyOnce(turns: seq<Turn>)
    ensures Replies(RowsOf(turns)) == Contents(turns)
    ensures (forall k :: 0 <= k < |turns| ==> turns[k].content.Some?) ==> |Contents(turns)| == |turns|
  {
    if turns != [] {
      var init, last := turns[..|turns| - 1], turns[|turns| - 1];
      EachReplyOnce(init);
      OneMoreRow(RowsOf(init), Caller(last.said));
      if last.content.Some? {
        OneMoreRow(RowsOf(init) + [Caller(last.said)], Assistant(last.content.value));
      } else {
        assert RowsOf(turns) == RowsOf(init) + [Caller(last.said)];
      }
    }
  }

  lemma OneMoreRow(rows: seq<Row>, row: Row)
    ensures Replies(rows + [row]) == Replies(rows) + if row.Assistant? then [row.text] else []
  {
    assert (rows + [row])[..|rows|] == rows;
  }
}
