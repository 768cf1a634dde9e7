/** iCalendar text: escaping values, and folding content lines (sections 3.1 and
    3.3.11 of RFC 5545). */
module Ics {
  import opened Common
  import opened Text

  // ---- escaping -------------------------------------------------------------------------

  const BACKSLASH: Unit := 92
  const SEMICOLON: Unit := 59
  const COMMA: Unit := 44
  const CR: Unit := 13
  const LF: Unit := 10
  const LOWER_N: Unit := 110
  const UPPER_N: Unit := 78

  /** Puts a backslash before every `c`. */
  function Replace(t: Str, c: Unit): Str {
    if t == [] then []
    else (if t[0] == c then [BACKSLASH, c] else [t[0]]) + Replace(t[1..], c)
  }

  /** Every `\r?\n` becomes a backslash and an n. */
  function ReplaceNewlines(t: Str): Str {
    if t == [] then []
    else if t[0] == LF then [BACKSLASH, LOWER_N] + ReplaceNewlines(t[1..])
    else if t[0] == CR && |t| > 1 && t[1] == LF then [BACKSLASH, LOWER_N] + ReplaceNewlines(t[2..])
    else [t[0]] + ReplaceNewlines(t[1..])
  }

  /** The four replacements, one after the other. */
  function Escape(value: Str): Str {
    ReplaceNewlines(Replace(Replace(Replace(value, BACKSLASH), SEMICOLON), COMMA))
  }

  predicate Special(c: Unit) { c == BACKSLASH || c == SEMICOLON || c == COMMA }

  /** One pass, character by character. */
  function EscapeOnce(t: Str): Str {
    if t == [] then []
    else if t[0] == LF then [BACKSLASH, LOWER_N] + EscapeOnce(t[1..])
    else if t[0] == CR && |t| > 1 && t[1] == LF then [BACKSLASH, LOWER_N] + EscapeOnce(t[2..])
    else (if Special(t[0]) then [BACKSLASH, t[0]] else [t[0]]) + EscapeOnce(t[1..])
  }

  /** CRLF read as LF. */
  function LfOnly(t: Str): Str {
    if t == [] then []
    else if t[0] == CR && |t| > 1 && t[1] == LF then [LF] + LfOnly(t[2..])
    else [t[0]] + LfOnly(t[1..])
  }

  /** How a reader turns an escaped value back into text. */
  function Unescape(t: Str): Str {
    if t == [] then []
    else if t[0] == BACKSLASH && |t| > 1 then
      [if t[1] == LOWER_N || t[1] == UPPER_N then LF else t[1]] + Unescape(t[2..])
    else [t[0]] + Unescape(t[1..])
  }

  function Quote(t: Str): Str { Replace(Replace(Replace(t, BACKSLASH), SEMICOLON), COMMA) }

  lemma QuoteCons(t: Str)
    requires t != []
    ensures Quote(t) == (if Special(t[0]) then [BACKSLASH, t[0]] else [t[0]]) + Quote(t[1..])
  {
    var c, rest := t[0], t[1..];
    var a := Replace(rest, BACKSLASH);
    var b := Replace(a, SEMICOLON);
    if c == BACKSLASH {
      ReplaceTwo(BACKSLASH, BACKSLASH, a, SEMICOLON);
      ReplaceTwo(BACKSLASH, BACKSLASH, b, COMMA);
    } else {
      ReplaceOne(c, rest, BACKSLASH);
      if c == SEMICOLON {
        ReplaceOne(c, a, SEMICOLON);
        ReplaceTwo(BACKSLASH, c, b, COMMA);
      } else {
        ReplaceOne(c, a, SEMICOLON);
        ReplaceOne(c, b, COMMA);
      }
    }
  }

  lemma ReplaceOne(c: Unit, t: Str, d: Unit)
    ensures Replace([c] + t, d) == (if c == d then [BACKSLASH, d] else [c]) + Replace(t, d)
  {
    assert ([c] + t)[1..] == t;
  }

  lemma ReplaceTwo(c: Unit, e: Unit, t: Str, d: Unit)
    requires c != d && e != d
    ensures Replace([c, e] + t, d) == [c, e] + Replace(t, d)
  {
    assert ([c, e] + t) == [c] + ([e] + t);
    ReplaceOne(c, [e] + t, d);
    ReplaceOne(e, t, d);
  }

  /** The four sequential replacements do not disturb one another: together they are
      one map over the characters. */
  lemma {:induction false} EscapeIsOnePass(t: Str)
    ensures Escape(t) == EscapeOnce(t)
    decreases |t|
  {
    if t != [] {
      var rest := t[1..];
      QuoteCons(t);
      EscapeIsOnePass(rest);
      if t[0] == CR && |t| > 1 && t[1] == LF {
        QuoteCons(rest);
        EscapeIsOnePass(t[2..]);
        assert rest[1..] == t[2..];
        assert Quote(t) == [CR, LF] + Quote(t[2..]);
        assert Quote(t)[2..] == Quote(t[2..]);
      } else if Special(t[0]) {
        NewlinesPast(BACKSLASH, [t[0]] + Quote(rest));
        NewlinesPast(t[0], Quote(rest));
        assert Quote(t) == [BACKSLASH] + ([t[0]] + Quote(rest));
      } else if t[0] == LF {
        assert Quote(t)[1..] == Quote(rest);
      } else {
        if rest != [] { QuoteCons(rest); }
        NewlinesPast(t[0], Quote(rest));
      }
    }
  }

  lemma NewlinesPast(c: Unit, t: Str)
    requires c != LF && !(c == CR && t != [] && t[0] == LF)
    ensures ReplaceNewlines([c] + t) == [c] + ReplaceNewlines(t)
  {
    assert ([c] + t)[1..] == t;
  }

  /** Reading an escaped value back gives the value, with CRLF read as LF. */
  lemma {:induction false} EscapeRoundTrip(t: Str)
    ensures Unescape(Escape(t)) == LfOnly(t)
  {
    EscapeIsOnePass(t);
    OnePassRoundTrip(t);
  }

  lemma {:induction false} OnePassRoundTrip(t: Str)
    ensures Unescape(EscapeOnce(t)) == LfOnly(t)
    decreases |t|
  {
    if t != [] {
      if t[0] == CR && |t| > 1 && t[1] == LF {
        OnePassRoundTrip(t[2..]);
        assert EscapeOnce(t)[2..] == EscapeOnce(t[2..]);
      } else {
        OnePassRoundTrip(t[1..]);
        if t[0] == LF || Special(t[0]) {
          assert EscapeOnce(t)[2..] == EscapeOnce(t[1..]);
        } else {
          assert EscapeOnce(t)[1..] == EscapeOnce(t[1..]);
        }
      }
    }
  }

  /** An escaped value is a single line. */
  lemma {:induction false} EscapedIsOneLine(t: Str)
    ensures LF !in Escape(t)
  {
    EscapeIsOnePass(t);
    OnePassHasNoLf(t);
  }

  lemma {:induction false} OnePassHasNoLf(t: Str)
    ensures LF !in EscapeOnce(t)
    decreases |t|
  {
    if t != [] {
      OnePassHasNoLf(t[1..]);
      if |t| > 1 { OnePassHasNoLf(t[2..]); }
    }
  }

  // ---- UTF-8 --------------------------------------------------------------------------------

  type Bytes = seq<Byte>

  predicate IsContinuation(b: Byte) { 0x80 <= b < 0xC0 }

  /** The length of the character a lead byte starts; zero for bytes that start none. */
  function CharLength(lead: Byte): nat {
    if lead < 0x80 then 1
    else if 0xC0 <= lead < 0xE0 then 2
    else if 0xE0 <= lead < 0xF0 then 3
    else if 0xF0 <= lead < 0xF8 then 4
    else 0
  }

  /** Whole characters only. */
  predicate WellFormed(t: Bytes) {
    t == []
    || var n := CharLength(t[0]);
       0 < n <= |t| && (forall i :: 1 <= i < n ==> IsContinuation(t[i])) && WellFormed(t[n..])
  }

  /** A cut in front of any byte that continues nothing leaves both sides whole. */
  lemma {:induction false} CutsClean(t: Bytes, at: nat)
    requires WellFormed(t) && at <= |t| && (at < |t| ==> !IsContinuation(t[at]))
    ensures WellFormed(t[..at]) && WellFormed(t[at..])
    decreases |t|
  {
    if at == |t| {
      assert t[..at] == t;
    } else if at > 0 {
      var n := CharLength(t[0]);
      assert at >= n;
      CutsClean(t[n..], at - n);
      assert t[n..][..at - n] == t[..at][n..];
      assert t[n..][at - n..] == t[at..];
    }
  }

  /** Such a cut is never more than three bytes away. */
  lemma {:induction false} CutIsNear(t: Bytes, at: nat) returns (cut: nat)
    requires WellFormed(t) && 4 <= at <= |t|
    ensures at - 3 <= cut <= at && (cut < |t| ==> !IsContinuation(t[cut]))
    decreases |t|
  {
    var n := CharLength(t[0]);
    if n >= at - 3 {
      cut := n;
      if n < |t| { assert t[n] == t[n..][0]; }
    } else {
      var rest := CutIsNear(t[n..], at - n);
      cut := rest + n;
      if cut < |t| { assert t[cut] == t[n..][rest]; }
    }
  }

  // ---- folding --------------------------------------------------------------------------------

  const CRLF: Bytes := [13, 10]
  const FOLD: Bytes := [13, 10, 32]

  /** `parts.join("\r\n ")`. */
  function JoinFolded(parts: seq<Bytes>): Bytes {
    if parts == [] then []
    else if |parts| == 1 then parts[0]
    else JoinFolded(parts[..|parts| - 1]) + FOLD + parts[|parts| - 1]
  }

  function Concat(parts: seq<Bytes>): Bytes {
    if parts == [] then [] else Concat(parts[..|parts| - 1]) + parts[|parts| - 1]
  }

  function Room(k: nat): nat { if k == 0 then 75 else 74 }

  /** The part that ends at `end` could not have ended later on a character boundary:
      every position after it, up to `last`, falls inside a character. */
  predicate Full(line: Bytes, end: nat, last: nat) {
    (end < last ==> last < |line|) && forall p :: end < p <= last < |line| ==> IsContinuation(line[p])
  }

  /** All parts but the one that ends the line are as full as that. */
  ghost predicate AllFull(line: Bytes, parts: seq<Bytes>) {
    parts == []
    || var before := parts[..|parts| - 1];
       && AllFull(line, before)
       && (|Concat(parts)| < |line| ==> Full(line, |Concat(parts)|, |Concat(before)| + Room(|before|)))
  }

  /** The parts make up the line up to `start`; each is whole characters and, with the
      space that will stand before it, at most 75 octets, and cut as late as possible. */
  ghost predicate IsFoldingTo(line: Bytes, start: nat, parts: seq<Bytes>)
    requires start <= |line|
  {
    && Concat(parts) == line[..start]
    && (forall k :: 0 <= k < |parts| ==> Fits(parts[k], k) && (line != [] ==> parts[k] != []))
    && AllFull(line, parts)
  }

  ghost predicate IsFolding(line: Bytes, parts: seq<Bytes>) { IsFoldingTo(line, |line|, parts) }

  predicate Fits(part: Bytes, k: nat) { WellFormed(part) && |part| <= Room(k) }

  ghost predicate FoldsTo(line: Bytes, folded: Bytes) {
    exists parts :: parts != [] && IsFolding(line, parts) && folded == JoinFolded(parts)
  }

  method FoldIcsLine(line: Bytes) returns (folded: Bytes)
    requires WellFormed(line)
    ensures FoldsTo(line, folded)
    ensures |line| <= 75 ==> folded == line
  {
    hide IsFolding;
    hide WellFormed;
    if |line| <= 75 {
      OnePart(line);
      return line;
    }
    var parts := FoldLong(line);
    folded := JoinFolded(parts);
  }

  method FoldLong(line: Bytes) returns (parts: seq<Bytes>)
    requires WellFormed(line) && line != []
    ensures parts != [] && IsFolding(line, parts)
  {
    hide WellFormed;
    hide IsFoldingTo;
    parts := [];
    var start := 0;
    NoParts(line);
    while start < |line|
      invariant start <= |line| && (start == 0 <==> parts == [])
      invariant WellFormed(line[start..]) && IsFoldingTo(line, start, parts)
    {
      var take := CutPart(line, start, parts);
      parts := parts + [line[start..start + take]];
      start := start + take;
    }
  }

  /** The next part: 75 octets at first, 74 afterwards, backed up to a character boundary. */
  method CutPart(line: Bytes, start: nat, parts: seq<Bytes>) returns (take: nat)
    requires start < |line| && (start == 0 <==> parts == [])
    requires WellFormed(line[start..]) && IsFoldingTo(line, start, parts)
    ensures 0 < take <= |line| - start
    ensures IsFoldingTo(line, start + take, parts + [line[start..start + take]]) && WellFormed(line[start + take..])
  {
    hide WellFormed;
    hide IsFoldingTo;
    var room := if start == 0 then 75 else 74;
    take := if room <= |line| - start then room else |line| - start;
    take := BackUp(line[start..], take);
    NextPart(line, start, take, parts);
  }

  lemma NoParts(line: Bytes)
    ensures IsFoldingTo(line, 0, []) && line[0..] == line
  {
  }

  lemma NextPart(line: Bytes, start: nat, take: nat, parts: seq<Bytes>)
    requires 0 < take <= |line| - start && IsFoldingTo(line, start, parts)
    requires WellFormed(line[start..][..take]) && WellFormed(line[start..][take..]) && take <= Room(|parts|)
    requires start + take < |line| ==> Full(line[start..], take, Room(|parts|))
    ensures IsFoldingTo(line, start + take, parts + [line[start..start + take]])
    ensures WellFormed(line[start + take..])
  {
    hide WellFormed;
    var part := line[start..start + take];
    assert line[start..][take..] == line[start + take..];
    assert line[start..][..take] == part;
    assert line[..start] + part == line[..start + take];
    assert (parts + [part])[..|parts|] == parts;
    if start + take < |line| {
      FullInTheWhole(line, start, take, Room(|parts|));
    }
    assert Concat(parts + [part]) == line[..start + take];
    assert AllFull(line, parts + [part]);
  }

  lemma FullInTheWhole(line: Bytes, start: nat, take: nat, room: nat)
    requires start <= |line| && Full(line[start..], take, room)
    ensures Full(line, start + take, start + room)
  {
    forall p | start + take < p <= start + room < |line| ensures IsContinuation(line[p]) {
      assert line[start..][p - start] == line[p];
    }
  }

  /** Moves a cut back off the middle of a character. */
  method BackUp(rest: Bytes, room: nat) returns (take: nat)
    requires WellFormed(rest) && 0 < room <= |rest| && (room < |rest| ==> room >= 74)
    ensures 0 < take <= room && WellFormed(rest[..take]) && WellFormed(rest[take..])
    ensures Full(rest, take, room)
    ensures room == |rest| ==> take == room
  {
    take := room;
    if room < |rest| {
      ghost var cut := CutIsNear(rest, room);
      while take > 1 && take < |rest| && IsContinuation(rest[take])
        invariant cut <= take <= room
        invariant forall i :: take < i <= room ==> IsContinuation(rest[i])
      {
        take := take - 1;
      }
    }
    CutsClean(rest, take);
  }

  lemma OnePart(line: Bytes)
    requires WellFormed(line) && |line| <= 75
    ensures FoldsTo(line, line)
  {
    hide WellFormed;
    hide Full;
    var parts := [line];
    assert parts[..0] == [] && Concat([]) == [] && Concat(parts) == [] + line == line;
    assert AllFull(line, []) && AllFull(line, parts);
    hide AllFull;
    hide Concat;
    assert line[..|line|] == line;
    assert IsFolding(line, parts) && JoinFolded(parts) == line;
  }

  // ---- unfolding ----------------------------------------------------------------------------

  predicate StartsFold(t: Bytes) { |t| >= 3 && t[0] == 13 && t[1] == 10 && (t[2] == 32 || t[2] == 9) }

  /** A reader drops every CRLF that a space or tab follows, and that space or tab. */
  function Unfold(t: Bytes): Bytes {
    if t == [] then []
    else if StartsFold(t) then Unfold(t[3..])
    else [t[0]] + Unfold(t[1..])
  }

  lemma {:induction false} UnfoldNoLf(t: Bytes)
    requires 10 !in t
    ensures Unfold(t) == t
  {
    if t != [] { UnfoldNoLf(t[1..]); }
  }

  /** Text without LF is read as it stands, up to the line break that follows it. */
  lemma {:induction false} UnfoldPast(t: Bytes, rest: Bytes)
    requires 10 !in t && |rest| >= 2 && rest[0] == 13 && rest[1] == 10
    ensures Unfold(t + rest) == t + Unfold(rest)
  {
    if t == [] {
      assert t + rest == rest;
    } else {
      UnfoldPast(t[1..], rest);
      assert (t + rest)[1..] == t[1..] + rest;
      assert (t + rest)[1] != 10 by { if |t| > 1 { assert t[1] in t; } }
      assert !StartsFold(t + rest);
    }
  }

  lemma {:induction false} JoinFromFront(parts: seq<Bytes>)
    requires |parts| > 1
    ensures JoinFolded(parts) == parts[0] + FOLD + JoinFolded(parts[1..])
    ensures Concat(parts) == parts[0] + Concat(parts[1..])
  {
    var init, last := parts[..|parts| - 1], parts[|parts| - 1];
    assert parts[1..][..|parts| - 2] == init[1..];
    if |parts| == 2 {
      assert init == [parts[0]] && init[..0] == [] && parts[1..] == [last];
      assert Concat(init) == parts[0] && Concat(parts[1..]) == last;
    } else {
      JoinFromFront(init);
      assert JoinFolded(parts) == parts[0] + FOLD + (JoinFolded(init[1..]) + FOLD + last);
    }
  }

  predicate BreakOrEnd(rest: Bytes) { rest == [] || (|rest| >= 2 && rest[0] == 13 && rest[1] == 10) }

  lemma {:induction false} UnfoldJoined(parts: seq<Bytes>, rest: Bytes)
    requires parts != [] && 10 !in Concat(parts) && BreakOrEnd(rest)
    ensures Unfold(JoinFolded(parts) + rest) == Concat(parts) + Unfold(rest)
  {
    if |parts| == 1 {
      hide Unfold;
      assert parts[..0] == [] && Concat(parts) == [] + parts[0] == parts[0];
      UnfoldOne(parts[0], rest);
    } else {
      JoinFromFront(parts);
      hide Unfold;
      hide Concat;
      hide JoinFolded;
      NoLfInParts(parts[0], Concat(parts[1..]));
      UnfoldJoined(parts[1..], rest);
      UnfoldMany(parts[0], JoinFolded(parts[1..]), Concat(parts[1..]), rest);
    }
  }

  lemma UnfoldMany(part: Bytes, joined: Bytes, plain: Bytes, rest: Bytes)
    requires 10 !in part && Unfold(joined + rest) == plain + Unfold(rest)
    ensures Unfold(part + FOLD + joined + rest) == part + plain + Unfold(rest)
  {
    hide Unfold;
    UnfoldFirst(part, joined, rest);
    assert part + (plain + Unfold(rest)) == part + plain + Unfold(rest);
  }

  lemma NoLfInParts(a: Bytes, b: Bytes)
    ensures 10 !in a + b ==> 10 !in a && 10 !in b
  {
  }

  lemma UnfoldOne(part: Bytes, rest: Bytes)
    requires 10 !in part && BreakOrEnd(rest)
    ensures Unfold(part + rest) == part + Unfold(rest)
  {
    if rest == [] {
      UnfoldNoLf(part);
      assert part + rest == part && part + [] == part;
    } else {
      UnfoldPast(part, rest);
    }
  }

  lemma UnfoldFirst(part: Bytes, joined: Bytes, rest: Bytes)
    requires 10 !in part
    ensures Unfold(part + FOLD + joined + rest) == part + Unfold(joined + rest)
  {
    hide Unfold;
    var more := joined + rest;
    assert part + FOLD + joined + rest == part + (FOLD + more);
    UnfoldPast(part, FOLD + more);
    FoldDropped(more);
  }

  lemma FoldDropped(more: Bytes)
    ensures Unfold(FOLD + more) == Unfold(more)
  {
    assert (FOLD + more)[3..] == more;
  }

  lemma UnfoldFolded(line: Bytes, folded: Bytes, rest: Bytes)
    requires FoldsTo(line, folded) && 10 !in line && BreakOrEnd(rest)
    ensures Unfold(folded + rest) == line + Unfold(rest)
  {
    hide Unfold;
    hide AllFull;
    hide Fits;
    var parts :| parts != [] && IsFolding(line, parts) && folded == JoinFolded(parts);
    assert line[..|line|] == line;
    UnfoldJoined(parts, rest);
  }

  /** Unfolding a folded line gives the line back. */
  lemma FoldRoundTrip(line: Bytes, folded: Bytes)
    requires FoldsTo(line, folded) && 10 !in line
    ensures Unfold(folded) == line
  {
    UnfoldFolded(line, folded, []);
    assert folded + [] == folded && line + [] == line;
  }

  // ---- the whole calendar object -----------------------------------------------------------

  ghost predicate ContentLine(line: Bytes) {
    WellFormed(line) && 10 !in line && line != [] && line[0] != 32 && line[0] != 9
  }

  /** The lines, each ended by CRLF. */
  function Ended(lines: seq<Bytes>): Bytes {
    if lines == [] then [] else lines[0] + CRLF + Ended(lines[1..])
  }

  /** Folds every line of the calendar object; unfolding the result gives the lines back. */
  method BuildCalendar(lines: seq<Bytes>) returns (text: Bytes)
    requires forall k :: 0 <= k < |lines| ==> ContentLine(lines[k])
    ensures Unfold(text) == Ended(lines)
  {
    var folded: seq<Bytes> := [];
    for k := 0 to |lines|
      invariant |folded| == k && forall i :: 0 <= i < k ==> FoldsTo(lines[i], folded[i])
    {
      var f := FoldIcsLine(lines[k]);
      folded := folded + [f];
    }
    text := Ended(folded);
    DocumentRoundTrip(lines, folded);
  }

  lemma {:induction false} DocumentRoundTrip(lines: seq<Bytes>, folded: seq<Bytes>)
    requires |folded| == |lines|
    requires forall k :: 0 <= k < |lines| ==> ContentLine(lines[k]) && FoldsTo(lines[k], folded[k])
    ensures Unfold(Ended(folded)) == Ended(lines)
  {
    hide FoldsTo;
    if lines != [] {
      hide Unfold;
      DocumentRoundTrip(lines[1..], folded[1..]);
      var more := Ended(folded[1..]);
      assert Ended(folded) == folded[0] + (CRLF + more);
      UnfoldFolded(lines[0], folded[0], CRLF + more);
      if |lines| > 1 { FirstByte(lines[1], folded[1]); }
      LineBreakStays(more);
    }
  }

  /** Folding does not change how a line begins. */
  lemma FirstByte(line: Bytes, folded: Bytes)
    requires FoldsTo(line, folded) && ContentLine(line)
    ensures folded != [] && folded[0] == line[0]
  {
    var parts :| parts != [] && IsFolding(line, parts) && folded == JoinFolded(parts);
    if |parts| == 1 {
      assert parts[..0] == [] && Concat(parts) == [] + parts[0] == parts[0];
    } else {
      JoinFromFront(parts);
    }
  }

  lemma LineBreakStays(more: Bytes)
    requires more == [] || (more[0] != 32 && more[0] != 9)
    ensures Unfold(CRLF + more) == CRLF + Unfold(more)
  {
    assert (CRLF + more)[1..] == [10] + more && ([10] + more)[1..] == more;
  }
}
