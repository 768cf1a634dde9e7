/** JavaScript strings as sequences of UTF-16 code units, and the whitespace
    operations (`trim`, collapsing of `\s+`, joining with a space) that the
    speech path applies to them. */
module Text {

  newtype Unit = u: int | 0 <= u < 0x1_0000

  type Str = seq<Unit>

  const SPACE: Unit := 32
  const NEWLINE: Unit := 10

  /** Full stop, question and exclamation mark, and the two dandas. */
  predicate IsTerminator(u: Unit) {
    u == 46 || u == 63 || u == 33 || u == 0x0964 || u == 0x0965
  }

  /** The JavaScript `\s` class, which is also what `trim` removes. */
  predicate IsSpace(u: Unit) {
    || 9 <= u <= 13 || u == 32 || u == 0xA0 || u == 0x1680 || 0x2000 <= u <= 0x200A
    || u == 0x2028 || u == 0x2029 || u == 0x202F || u == 0x205F || u == 0x3000 || u == 0xFEFF
  }

  function TrimStart(t: Str): Str {
    if t != [] && IsSpace(t[0]) then TrimStart(t[1..]) else t
  }

  function TrimEnd(t: Str): Str {
    if t != [] && IsSpace(t[|t| - 1]) then TrimEnd(t[..|t| - 1]) else t
  }

  function Trim(t: Str): Str { TrimEnd(TrimStart(t)) }

  predicate Trimmed(t: Str) {
    t == [] || (!IsSpace(t[0]) && !IsSpace(t[|t| - 1]))
  }

  /** Every maximal whitespace run becomes one space. */
  function Collapse(t: Str): Str {
    if t == [] then []
    else if !IsSpace(t[0]) then [t[0]] + Collapse(t[1..])
    else if |t| > 1 && IsSpace(t[1]) then Collapse(t[1..])
    else [SPACE] + Collapse(t[1..])
  }

  function Normalize(t: Str): Str { Trim(Collapse(t)) }

  /** `parts.join(" ")`. */
  function Join(parts: seq<Str>): Str {
    if parts == [] then []
    else if |parts| == 1 then parts[0]
    else parts[0] + [SPACE] + Join(parts[1..])
  }

  /** `lines.join("\n")`. */
  function JoinLines(lines: seq<Str>): Str {
    if lines == [] then [] else if |lines| == 1 then lines[0] else lines[0] + [NEWLINE] + JoinLines(lines[1..])
  }

  function TotalLength(texts: seq<Str>): nat {
    if texts == [] then 0 else |texts[0]| + TotalLength(texts[1..])
  }

  lemma TailOfSum<T>(a: seq<T>, b: seq<T>)
    requires a != []
    ensures (a + b)[0] == a[0] && (a + b)[1..] == a[1..] + b
  {
  }

  /** Two texts with one space between them, when both say something. */
  function Glue(a: Str, b: Str): Str {
    if a == [] then b else if b == [] then a else a + [SPACE] + b
  }

  ghost predicate NoneEmpty(parts: seq<Str>) {
    forall k :: 0 <= k < |parts| ==> parts[k] != []
  }

  lemma GlueAssociative(a: Str, b: Str, c: Str)
    ensures Glue(Glue(a, b), c) == Glue(a, Glue(b, c))
  {
    if a != [] && b != [] && c != [] {
      assert (a + [SPACE] + b) + [SPACE] + c == a + [SPACE] + (b + [SPACE] + c);
    }
  }

  lemma JoinEmpty(parts: seq<Str>)
    requires NoneEmpty(parts)
    ensures Join(parts) == [] <==> parts == []
  {
    if |parts| > 1 { assert |Join(parts)| > 0; }
  }

  lemma {:induction false} JoinSplits(a: seq<Str>, b: seq<Str>)
    requires NoneEmpty(a) && NoneEmpty(b)
    ensures Join(a + b) == Glue(Join(a), Join(b))
  {
    JoinEmpty(a);
    JoinEmpty(b);
    if a == [] {
      assert a + b == b;
    } else {
      assert (a + b)[1..] == a[1..] + b;
      JoinSplits(a[1..], b);
      if |a| > 1 { GlueAssociative(a[0], Join(a[1..]), Join(b)); }
    }
  }

  lemma {:induction false} JoinOneMore(parts: seq<Str>, last: Str)
    ensures Join(parts + [last]) == if parts == [] then last else Join(parts) + [SPACE] + last
  {
    if |parts| > 0 {
      assert (parts + [last])[1..] == parts[1..] + [last];
      JoinOneMore(parts[1..], last);
      if |parts| > 1 {
        assert parts[0] + [SPACE] + (Join(parts[1..]) + [SPACE] + last)
            == (parts[0] + [SPACE] + Join(parts[1..])) + [SPACE] + last;
      }
    }
  }

  lemma {:induction false} TrimEndFacts(t: Str)
    ensures TrimEnd(t) <= t
    ensures TrimEnd(t) == [] || !IsSpace(TrimEnd(t)[|TrimEnd(t)| - 1])
    ensures forall k :: |TrimEnd(t)| <= k < |t| ==> IsSpace(t[k])
  {
    if t != [] && IsSpace(t[|t| - 1]) { TrimEndFacts(t[..|t| - 1]); }
  }

  lemma {:induction false} TrimStartFacts(t: Str)
    ensures |TrimStart(t)| <= |t| && TrimStart(t) == t[|t| - |TrimStart(t)|..]
    ensures TrimStart(t) == [] || !IsSpace(TrimStart(t)[0])
    ensures forall k :: 0 <= k < |t| - |TrimStart(t)| ==> IsSpace(t[k])
  {
    if t != [] && IsSpace(t[0]) {
      TrimStartFacts(t[1..]);
      var n := |TrimStart(t)|;
      assert t[1..][|t| - 1 - n..] == t[|t| - n..];
      forall k | 0 <= k < |t| - n ensures IsSpace(t[k]) {
        if k > 0 { assert t[k] == t[1..][k - 1]; }
      }
    }
  }

  lemma TrimTrims(t: Str)
    ensures Trimmed(Trim(t))
    ensures Trimmed(t) ==> Trim(t) == t
  {
    TrimStartFacts(t);
    TrimEndFacts(TrimStart(t));
  }

  lemma {:induction false} TrimEndKeepsHead(c: Unit, t: Str)
    ensures !IsSpace(c) || TrimEnd(t) != [] ==> TrimEnd([c] + t) == [c] + TrimEnd(t)
    ensures IsSpace(c) && TrimEnd(t) == [] ==> TrimEnd([c] + t) == []
  {
    if t != [] && IsSpace(t[|t| - 1]) {
      TrimEndKeepsHead(c, t[..|t| - 1]);
      assert ([c] + t)[..|t|] == [c] + t[..|t| - 1];
    }
  }

  // ---- normalization distributes over a cut next to whitespace ----

  ghost predicate CleanCut(a: Str, b: Str) {
    a == [] || b == [] || IsSpace(a[|a| - 1]) || IsSpace(b[0])
  }

  /** The whitespace-separated words of a text. */
  ghost function Words(t: Str): (ws: seq<Str>)
    ensures NoneEmpty(ws)
    ensures t != [] && !IsSpace(t[0]) ==> ws != []
  {
    if t == [] then []
    else
      var rest := Words(t[1..]);
      if IsSpace(t[0]) then rest
      else if |t| == 1 || IsSpace(t[1]) then [[t[0]]] + rest
      else [[t[0]] + rest[0]] + rest[1..]
  }

  lemma {:induction false} WordsCut(a: Str, b: Str)
    requires CleanCut(a, b)
    ensures Words(a + b) == Words(a) + Words(b)
  {
    if a == [] {
      assert a + b == b;
    } else if b == [] {
      assert a + b == a;
    } else {
      assert (a + b)[1..] == a[1..] + b;
      WordsCut(a[1..], b);
      if |a| == 1 {
        assert a[1..] == [];
      } else if !IsSpace(a[0]) && !IsSpace(a[1]) {
        assert Words(a[1..]) != [];
      }
    }
  }

  lemma {:induction false} CollapseStart(t: Str)
    requires t != [] && IsSpace(t[0])
    ensures TrimStart(t) == [] ==> Collapse(t) == [SPACE] && Words(t) == []
    ensures TrimStart(t) != [] ==>
      Collapse(t) == [SPACE] + Collapse(TrimStart(t)) && Words(t) == Words(TrimStart(t))
  {
    if |t| == 1 {
      assert t[1..] == [];
    } else {
      assert t[1..][0] == t[1];
      if IsSpace(t[1]) { CollapseStart(t[1..]); } else { assert TrimStart(t) == t[1..]; }
    }
  }

  lemma JoinHead(word: Str, rest: seq<Str>)
    ensures Join([word] + rest) == if rest == [] then word else word + ([SPACE] + Join(rest))
  {
    assert ([word] + rest)[1..] == rest;
    assert word + [SPACE] + Join(rest) == word + ([SPACE] + Join(rest));
  }

  lemma SpaceThenWords(c: Unit, more: Str)
    requires !IsSpace(c) && more != [] && !IsSpace(more[0])
    requires TrimEnd(Collapse(more)) == Join(Words(more))
    ensures TrimEnd([c] + ([SPACE] + Collapse(more))) == Join([[c]] + Words(more))
  {
    hide TrimEnd;
    hide Collapse;
    hide Words;
    JoinEmpty(Words(more));
    TrimEndKeepsHead(SPACE, Collapse(more));
    TrimEndKeepsHead(c, [SPACE] + Collapse(more));
    JoinHead([c], Words(more));
  }

  lemma {:induction false} NormalizeFromWord(t: Str)
    requires t == [] || !IsSpace(t[0])
    ensures TrimEnd(Collapse(t)) == Join(Words(t))
    decreases |t|
  {
    if t != [] {
      var rest := t[1..];
      TrimEndKeepsHead(t[0], Collapse(rest));
      if rest == [] {
      } else if !IsSpace(rest[0]) {
        NormalizeFromWord(rest);
        var ws := Words(rest);
        assert Words(t) == [[t[0]] + ws[0]] + ws[1..];
        if |ws| > 1 {
          assert [t[0]] + (ws[0] + [SPACE] + Join(ws[1..])) == ([t[0]] + ws[0]) + [SPACE] + Join(ws[1..]);
        }
      } else {
        CollapseStart(rest);
        TrimStartFacts(rest);
        var more := TrimStart(rest);
        assert Words(t) == [[t[0]]] + Words(rest);
        if more == [] {
          assert TrimEnd([SPACE]) == [];
        } else {
          NormalizeFromWord(more);
          SpaceThenWords(t[0], more);
        }
      }
    }
  }

  /** Normalizing is splitting into words and joining them with single spaces. */
  lemma NormalizeIsJoinedWords(t: Str)
    ensures Normalize(t) == Join(Words(t))
  {
    if t == [] || !IsSpace(t[0]) {
      NormalizeFromWord(t);
    } else {
      CollapseStart(t);
      TrimStartFacts(t);
      if TrimStart(t) == [] {
        assert TrimStart([SPACE]) == [];
      } else {
        var more := TrimStart(t);
        NormalizeFromWord(more);
        assert Collapse(t)[1..] == Collapse(more);
        assert TrimStart(Collapse(t)) == Collapse(more);
      }
    }
  }

  lemma NormalizeCut(a: Str, b: Str)
    requires CleanCut(a, b)
    ensures Normalize(a + b) == Glue(Normalize(a), Normalize(b))
  {
    WordsCut(a, b);
    NormalizeIsJoinedWords(a);
    NormalizeIsJoinedWords(b);
    NormalizeIsJoinedWords(a + b);
    JoinSplits(Words(a), Words(b));
  }

  lemma {:induction false} NormalizeAllSpace(t: Str)
    requires forall k :: 0 <= k < |t| ==> IsSpace(t[k])
    ensures Normalize(t) == []
  {
    if t != [] {
      assert forall k :: 0 <= k < |t[1..]| ==> IsSpace(t[1..][k]);
      NormalizeAllSpace(t[1..]);
      NormalizeIsJoinedWords(t);
      NormalizeIsJoinedWords(t[1..]);
    }
  }
}
