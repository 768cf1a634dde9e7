/** The rolling recap of a conversation: what leaves the recent window is folded
    into a bounded text, a few messages at a time. */
module RollingRecap {
  import opened Text

  datatype Message = Message(fromUser: bool, content: Str)

  const MIN_MESSAGES := 4
  const MAX_SUMMARY := 1200
  const VISITOR: Str := [86, 105, 115, 105, 116, 111, 114, 58, 32]
  const ASSISTANT: Str := [65, 115, 115, 105, 115, 116, 97, 110, 116, 58, 32]
  const ELLIPSIS: Str := [46, 46, 46]

  // ---- folding messages into the text ------------------------------------------------------

  /** One message as a labelled line, shortened; `clean` is the sanitizer. */
  function Line(clean: Str -> Str, m: Message): Str {
    var max := if m.fromUser then 160 else 120;
    var content := clean(m.content);
    (if m.fromUser then VISITOR else ASSISTANT) + if |content| > max then content[..max - 1] + ELLIPSIS else content
  }

  function Lines(clean: Str -> Str, older: seq<Message>): seq<Str> {
    if older == [] then [] else [Line(clean, older[0])] + Lines(clean, older[1..])
  }

  function Combined(clean: Str -> Str, previous: Str, older: seq<Message>): seq<Str> {
    (if Trim(previous) == [] then [] else [Trim(previous)]) + Lines(clean, older)
  }

  /** Drops lines from the front until the rest fits or one is left. */
  function DropToFit(lines: seq<Str>, max: nat): seq<Str> {
    if |JoinLines(lines)| > max && |lines| > 1 then DropToFit(lines[1..], max) else lines
  }

  function Fold(clean: Str -> Str, previous: Str, older: seq<Message>, max: nat): Str {
    var text := JoinLines(DropToFit(Combined(clean, previous, older), max));
    if |text| > max then text[..max] else text
  }

  method FoldSummary(clean: Str -> Str, previous: Str, older: seq<Message>, max: nat) returns (text: Str)
    ensures text == Fold(clean, previous, older, max)
  {
    var combined := Combined(clean, previous, older);
    while |JoinLines(combined)| > max && |combined| > 1
      invariant DropToFit(combined, max) == DropToFit(Combined(clean, previous, older), max)
      decreases |combined|
    {
      combined := combined[1..];
    }
    text := JoinLines(combined);
    if |text| > max { text := text[..max]; }
  }

  /** The lines from `k` on are what is kept: the longest tail that fits, or the
      newest line alone. */
  ghost predicate LongestTail(lines: seq<Str>, max: nat, k: nat) {
    k < |lines| && (|JoinLines(lines[k..])| <= max || k == |lines| - 1)
    && (forall i :: 0 <= i < k ==> |JoinLines(lines[i..])| > max)
  }

  lemma {:induction false} DropToFitKeepsTheTail(lines: seq<Str>, max: nat) returns (k: nat)
    requires lines != []
    ensures LongestTail(lines, max, k) && DropToFit(lines, max) == lines[k..]
  {
    if |JoinLines(lines)| > max && |lines| > 1 {
      var rest := DropToFitKeepsTheTail(lines[1..], max);
      k := rest + 1;
      assert lines[1..][rest..] == lines[k..];
      forall i | 0 <= i < k ensures |JoinLines(lines[i..])| > max {
        if i == 0 { assert lines[0..] == lines; } else { assert lines[1..][i - 1..] == lines[i..]; }
      }
    } else {
      k := 0;
      assert lines[0..] == lines;
    }
  }

  /** The recap stays within its cap; it is the longest tail of the old recap and the
      new lines that fits, and keeps at least the start of the newest line. */
  lemma RecapIsTheLongestTail(clean: Str -> Str, previous: Str, older: seq<Message>, max: nat)
    requires older != []
    ensures |Fold(clean, previous, older, max)| <= max
    ensures exists k: nat :: LongestTail(Combined(clean, previous, older), max, k)
              && Fold(clean, previous, older, max) <= JoinLines(Combined(clean, previous, older)[k..])
              && (|JoinLines(Combined(clean, previous, older)[k..])| <= max
                  ==> Fold(clean, previous, older, max) == JoinLines(Combined(clean, previous, older)[k..]))
  {
    assert Lines(clean, older) != [];
    var k := DropToFitKeepsTheTail(Combined(clean, previous, older), max);
  }

  lemma {:induction false} LinesSayWho(clean: Str -> Str, older: seq<Message>)
    ensures |Lines(clean, older)| == |older|
    ensures forall i :: 0 <= i < |older| ==>
      Lines(clean, older)[i] == Line(clean, older[i]) && |Lines(clean, older)[i]| >= 9
  {
    if older != [] { LinesSayWho(clean, older[1..]); }
  }

  lemma {:induction false} JoinedIsLonger(lines: seq<Str>)
    requires lines != []
    ensures |JoinLines(lines)| >= |lines[|lines| - 1]|
  {
    if |lines| > 1 {
      JoinedIsLonger(lines[1..]);
      assert lines[1..][|lines| - 2] == lines[|lines| - 1];
    }
  }

  /** Folding anything leaves a recap. */
  lemma RecapIsNotEmpty(clean: Str -> Str, previous: Str, older: seq<Message>, max: nat)
    requires older != [] && max > 0
    ensures Fold(clean, previous, older, max) != []
  {
    LinesSayWho(clean, older);
    var lines := Combined(clean, previous, older);
    assert lines[|lines| - 1] == Lines(clean, older)[|older| - 1];
    var k := DropToFitKeepsTheTail(lines, max);
    JoinedIsLonger(lines[k..]);
    assert lines[k..][|lines| - k - 1] == lines[|lines| - 1];
  }

  // ---- one turn -------------------------------------------------------------------------------

  datatype State = State(observed: nat, through: nat, text: Str)

  function Max(a: int, b: int): int { if a > b then a else b }

  /** `updateMemory`: the new state, and the messages it handed to the recap. */
  function Update(clean: Str -> Str, s: State, history: seq<Message>, window: nat): (r: (State, seq<Message>)) {
    var before := Max(s.observed, |history|);
    var windowStart := Max(0, before - window);
    var fetchStart := before - |history|;
    var foldFrom := Max(s.through, fetchStart);
    var foldable := windowStart - foldFrom;
    if foldable >= MIN_MESSAGES || (foldable > 0 && s.text == []) then
      var older := history[foldFrom - fetchStart..windowStart - fetchStart];
      (State(before + 2, windowStart, Fold(clean, s.text, older, MAX_SUMMARY)), older)
    else
      (State(before + 2, s.through, s.text), [])
  }

  // ---- whole conversations --------------------------------------------------------------------

  /** The last `fetch` messages. */
  function Fetched(transcript: seq<Message>, fetch: nat): seq<Message> {
    if |transcript| <= fetch then transcript else transcript[|transcript| - fetch..]
  }

  /** A transcript, the saved state, and everything ever handed to the recap. */
  datatype Conversation = Conversation(transcript: seq<Message>, state: State, handed: seq<Message>)

  function Turn(clean: Str -> Str, c: Conversation, said: (Message, Message), window: nat, fetch: nat): Conversation {
    var (state, folded) := Update(clean, c.state, Fetched(c.transcript, fetch), window);
    Conversation(c.transcript + [said.0, said.1], state, c.handed + folded)
  }

  function After(clean: Str -> Str, initial: seq<Message>, turns: seq<(Message, Message)>, window: nat,
                 fetch: nat): Conversation {
    if turns == [] then Conversation(initial, State(0, 0, []), [])
    else Turn(clean, After(clean, initial, turns[..|turns| - 1], window, fetch), turns[|turns| - 1], window, fetch)
  }

  /** How many messages left the window in the last turn and are not in the recap. */
  function Outstanding(c: Conversation, window: nat): int { Max(0, |c.transcript| - 2 - window) - c.state.through }

  ghost predicate InStep(c: Conversation, window: nat) {
    && c.state.through <= |c.transcript| && c.handed == c.transcript[..c.state.through]
    && |c.state.text| <= MAX_SUMMARY
    && c.state.observed == |c.transcript| && |c.transcript| >= 2
    && (if c.state.text == [] then c.state.through == 0 && Outstanding(c, window) == 0
        else c.state.through > 0 && (Outstanding(c, window) == 0 || Outstanding(c, window) == 2))
  }

  lemma TurnStaysInStep(clean: Str -> Str, c: Conversation, said: (Message, Message), window: nat, fetch: nat)
    requires InStep(c, window) && fetch >= window + 4
    ensures InStep(Turn(clean, c, said, window, fetch), window)
  {
    FoldsNext(clean, c, said, window, fetch);
  }

  lemma FirstTurn(clean: Str -> Str, initial: seq<Message>, said: (Message, Message), window: nat, fetch: nat)
    requires |initial| <= fetch
    ensures InStep(Turn(clean, Conversation(initial, State(0, 0, []), []), said, window, fetch), window)
  {
    FoldsNext(clean, Conversation(initial, State(0, 0, []), []), said, window, fetch);
  }

  /** What is folded is what comes next in the transcript. */
  lemma FoldsNext(clean: Str -> Str, c: Conversation, said: (Message, Message), window: nat, fetch: nat)
    requires c.state.through <= |c.transcript| && c.handed == c.transcript[..c.state.through]
    requires Max(c.state.observed, |Fetched(c.transcript, fetch)|) == |c.transcript|
    requires c.state.through >= |c.transcript| - |Fetched(c.transcript, fetch)| && |c.state.text| <= MAX_SUMMARY
    ensures var d := Turn(clean, c, said, window, fetch);
            d.transcript == c.transcript + [said.0, said.1] && d.state.observed == |d.transcript|
            && d.state.through <= |d.transcript| && d.handed == d.transcript[..d.state.through]
            && |d.state.text| <= MAX_SUMMARY
    ensures var d := Turn(clean, c, said, window, fetch);
            var left := Max(0, |c.transcript| - window) - c.state.through;
            if left >= MIN_MESSAGES || (left > 0 && c.state.text == [])
            then d.state.text != [] && d.state.through == Max(0, |c.transcript| - window)
            else d.state.text == c.state.text && d.state.through == c.state.through
  {
    hide Fold;
    var history, n := Fetched(c.transcript, fetch), |c.transcript|;
    var windowStart, from := Max(0, n - window), c.state.through;
    var d := Turn(clean, c, said, window, fetch);
    if windowStart - from >= MIN_MESSAGES || (windowStart - from > 0 && c.state.text == []) {
      var older := history[from - (n - |history|)..windowStart - (n - |history|)];
      SlicesAgree(c.transcript, fetch, from, windowStart);
      assert d.handed == c.handed + older;
      PrefixGrows(c.transcript, [said.0, said.1], from, windowStart);
      RecapIsTheLongestTail(clean, c.state.text, older, MAX_SUMMARY);
      RecapIsNotEmpty(clean, c.state.text, older, MAX_SUMMARY);
    } else {
      assert d.handed == c.handed + [];
      PrefixGrows(c.transcript, [said.0, said.1], from, from);
    }
  }

  lemma SlicesAgree(transcript: seq<Message>, fetch: nat, from: nat, to: nat)
    requires |transcript| - |Fetched(transcript, fetch)| <= from <= to <= |transcript|
    ensures var start := |transcript| - |Fetched(transcript, fetch)|;
            Fetched(transcript, fetch)[from - start..to - start] == transcript[from..to]
  {
  }

  lemma PrefixGrows(transcript: seq<Message>, more: seq<Message>, from: nat, to: nat)
    requires from <= to <= |transcript|
    ensures transcript[..from] + transcript[from..to] == (transcript + more)[..to]
    ensures transcript[..from] + [] == (transcript + more)[..from]
  {
  }

  /** Over any conversation each message is handed to the recap at most once, in
      order and without gaps; fewer than four (in fact at most two) messages are
      outside both the window and the recap; and the recap stays within its cap. */
  lemma {:induction false} EveryMessageOnce(clean: Str -> Str, initial: seq<Message>, turns: seq<(Message, Message)>,
                                           window: nat, fetch: nat)
    requires fetch >= window + 4 && |initial| <= fetch
    ensures var c := After(clean, initial, turns, window, fetch);
            && c.state.through <= |c.transcript| && c.handed == c.transcript[..c.state.through]
            && |c.state.text| <= MAX_SUMMARY && (turns != [] ==> 0 <= Outstanding(c, window) <= 2)
    ensures turns != [] ==> InStep(After(clean, initial, turns, window, fetch), window)
  {
    hide Turn;
    if turns != [] {
      var init, said := turns[..|turns| - 1], turns[|turns| - 1];
      if init == [] {
        FirstTurn(clean, initial, said, window, fetch);
      } else {
        EveryMessageOnce(clean, initial, init, window, fetch);
        TurnStaysInStep(clean, After(clean, initial, init, window, fetch), said, window, fetch);
      }
    }
  }

  /** The four spare messages are needed: with three or fewer, a recap that has
      begun is never extended again, whatever is said. */
  lemma ThreeSpareAreTooFew(clean: Str -> Str, c: Conversation, said: (Message, Message), window: nat, fetch: nat)
    requires fetch <= window + 3 && c.state.text != []
    ensures var d := Turn(clean, c, said, window, fetch);
            d.state.text == c.state.text && d.state.through == c.state.through && d.handed == c.handed
  {
    assert c.handed + [] == c.handed;
  }
}
