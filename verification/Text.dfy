/** String handling shared by the OpenSpec parsers and printers: trimming, line
    splitting, case folding and the small facts the round-trip proofs rest on. */
module Text {

  datatype Option<+T> = None | Some(value: T)

  /** Go's unicode.IsSpace. */
  predicate IsSpace(c: char) {
    c == ' ' || ('\t' <= c <= '\r') || c == '\U{85}' || c == '\U{A0}' || c == '\U{1680}'
    || ('\U{2000}' <= c <= '\U{200A}') || c == '\U{2028}' || c == '\U{2029}'
    || c == '\U{202F}' || c == '\U{205F}' || c == '\U{3000}'
  }

  /** The cutset every parser passes to strings.TrimRight. */
  predicate IsCut(c: char) {
    c == ' ' || c == '\t' || c == '\r'
  }

  /** strings.TrimRight(s, " \t\r") */
  function TrimCut(s: string): (r: string)
    ensures r <= s
    ensures r == "" || !IsCut(r[|r| - 1])
  {
    if s != "" && IsCut(s[|s| - 1]) then TrimCut(s[..|s| - 1]) else s
  }

  function TrimStart(s: string): string {
    if s != "" && IsSpace(s[0]) then TrimStart(s[1..]) else s
  }

  function TrimEnd(s: string): string {
    if s != "" && IsSpace(s[|s| - 1]) then TrimEnd(s[..|s| - 1]) else s
  }

  lemma {:induction false} TrimStartShape(s: string)
    ensures var r := TrimStart(s);
            |r| <= |s| && r == s[|s| - |r|..] && (r == "" || !IsSpace(r[0]))
  {
    hide IsSpace;
    if s != "" && IsSpace(s[0]) {
      TrimStartShape(s[1..]);
    }
  }

  lemma {:induction false} TrimEndShape(s: string)
    ensures var r := TrimEnd(s);
            r <= s && (r == "" || !IsSpace(r[|r| - 1]))
  {
    hide IsSpace;
    if s != "" && IsSpace(s[|s| - 1]) {
      TrimEndShape(s[..|s| - 1]);
    }
  }

  /** strings.TrimSpace */
  function Trim(s: string): (r: string)
    ensures Trimmed(r)
    ensures |r| <= |s|
    ensures '\n' !in s ==> '\n' !in r
  {
    TrimStartShape(s);
    TrimEndShape(TrimStart(s));
    TrimEnd(TrimStart(s))
  }

  predicate Trimmed(s: string) {
    s == "" || (!IsSpace(s[0]) && !IsSpace(s[|s| - 1]))
  }

  /** A trimmed string that fits on one line. */
  predicate OneLine(s: string) {
    Trimmed(s) && '\n' !in s
  }

  lemma TrimId(s: string)
    requires Trimmed(s)
    ensures Trim(s) == s
  {
  }

  lemma TrimCutId(s: string)
    requires Trimmed(s)
    ensures TrimCut(s) == s
  {
  }

  /** Leading blanks vanish in front of a trimmed string. */
  lemma TrimAfterBlank(s: string)
    requires Trimmed(s)
    ensures Trim(" " + s) == s
  {
    assert (" " + s)[1..] == s;
    TrimId(s);
  }

  lemma TrimStartBlank(s: string)
    ensures TrimStart(" " + s) == TrimStart(s)
  {
    assert (" " + s)[1..] == s;
  }

  lemma TrimTwoBlanks(l: string)
    requires Trimmed(l)
    ensures Trim("  " + l) == l
  {
    hide TrimStart, TrimEnd, IsSpace;
    TrimStartBlank(" " + l);
    TrimStartBlank(l);
    assert "  " + l == " " + (" " + l);
    TrimId(l);
  }

  lemma TrimCutAfter(p: string, s: string)
    requires Trimmed(s) && s != ""
    ensures TrimCut(p + s) == p + s
  {
    assert (p + s)[|p + s| - 1] == s[|s| - 1];
  }

  lemma TrimCutBlankTail(p: string)
    requires Trimmed(p)
    ensures TrimCut(p + " ") == p
  {
    assert (p + " ")[..|p|] == p;
    TrimCutId(p);
  }

  /** strings.HasSuffix */
  predicate HasSuffix(s: string, suffix: string) {
    |suffix| <= |s| && s[|s| - |suffix|..] == suffix
  }

  // --- splitting and joining lines ---

  function IndexOf(s: string, c: char): (i: nat)
    ensures i <= |s|
    ensures c !in s[..i]
    ensures i < |s| ==> s[i] == c
    ensures c in s <==> i < |s|
  {
    if s == "" || s[0] == c then 0 else
      var i := 1 + IndexOf(s[1..], c);
      assert s[..i] == [s[0]] + s[1..][..i - 1];
      i
  }

  /** strings.SplitSeq(s, "\n") */
  function Lines(s: string): (ls: seq<string>)
    ensures ls != []
    ensures NoBreaks(ls)
    decreases |s|
  {
    var i := IndexOf(s, '\n');
    if i == |s| then assert s[..i] == s; [s] else [s[..i]] + Lines(s[i + 1..])
  }

  /** strings.Join(ls, "\n") */
  function Join(ls: seq<string>): string {
    if ls == [] then "" else if |ls| == 1 then ls[0] else ls[0] + "\n" + Join(ls[1..])
  }

  /** Each line followed by a newline: what a renderer writes. */
  function Unlines(ls: seq<string>): string {
    if ls == [] then "" else ls[0] + "\n" + Unlines(ls[1..])
  }

  predicate NoBreaks(ls: seq<string>) {
    forall i :: 0 <= i < |ls| ==> '\n' !in ls[i]
  }

  lemma NoBreaksConcat(a: seq<string>, b: seq<string>)
    requires NoBreaks(a) && NoBreaks(b)
    ensures NoBreaks(a + b)
  {
  }

  lemma IndexOfFirst(a: string, b: string, c: char)
    requires c !in a
    ensures IndexOf(a + [c] + b, c) == |a|
  {
    var s := a + [c] + b;
    var i := IndexOf(s, c);
    assert s[|a|] == c && s[..|a|] == a;
  }

  /** Texts cut at the first c are equal piece by piece. */
  lemma IndexOfUnique(a1: string, b1: string, a2: string, b2: string, c: char)
    requires c !in a1 && c !in a2 && a1 + [c] + b1 == a2 + [c] + b2
    ensures a1 == a2 && b1 == b2
  {
    IndexOfFirst(a1, b1, c);
    IndexOfFirst(a2, b2, c);
    var s := a1 + [c] + b1;
    assert s[..|a1|] == a1 && s[|a1| + 1..] == b1;
    assert s[..|a2|] == a2 && s[|a2| + 1..] == b2;
  }

  lemma PrefixCancels(p: string, a: string, b: string)
    requires p + a == p + b
    ensures a == b
  {
    assert (p + a)[|p|..] == a && (p + b)[|p|..] == b;
  }

  lemma SuffixCancels(a: string, b: string, s: string)
    requires a + s == b + s
    ensures a == b
  {
    assert |a| == |b|;
    assert (a + s)[..|a|] == a && (b + s)[..|b|] == b;
  }

  lemma AppendAssoc<T>(a: seq<T>, b: seq<T>, c: seq<T>)
    ensures (a + b) + c == a + (b + c)
  {
  }

  lemma AppendFour<T>(base: seq<T>, a: seq<T>, b: seq<T>, c: seq<T>, d: seq<T>)
    ensures base + a + b + c + d == base + (a + b + c + d)
  {
  }

  lemma LinesCons(a: string, b: string)
    requires '\n' !in a
    ensures Lines(a + "\n" + b) == [a] + Lines(b)
  {
    IndexOfFirst(a, b, '\n');
    var s := a + "\n" + b;
    assert s[..|a|] == a && s[|a| + 1..] == b;
  }

  lemma {:induction false} LinesUnlines(ls: seq<string>, rest: string)
    requires NoBreaks(ls)
    ensures Lines(Unlines(ls) + rest) == ls + Lines(rest)
  {
    if ls == [] {
      assert Unlines(ls) + rest == rest;
    } else {
      var body := Unlines(ls[1..]);
      assert NoBreaks(ls[1..]) && Unlines(ls) == ls[0] + "\n" + body;
      hide Lines, Unlines, IndexOf;
      calc {
        Lines(Unlines(ls) + rest);
        { AppendAssoc(ls[0] + "\n", body, rest); }
        Lines(ls[0] + "\n" + (body + rest));
        { LinesCons(ls[0], body + rest); }
        [ls[0]] + Lines(body + rest);
        { LinesUnlines(ls[1..], rest); }
        [ls[0]] + (ls[1..] + Lines(rest));
        ls + Lines(rest);
      }
    }
  }

  lemma LinesSingle(s: string)
    requires '\n' !in s
    ensures Lines(s) == [s]
  {
    assert IndexOf(s, '\n') == |s|;
    assert s[..|s|] == s;
  }

  lemma {:induction false} LinesJoin(ls: seq<string>)
    requires ls != [] && NoBreaks(ls)
    ensures Lines(Join(ls)) == ls
  {
    if |ls| == 1 {
      LinesSingle(ls[0]);
    } else {
      LinesCons(ls[0], Join(ls[1..]));
      LinesJoin(ls[1..]);
    }
  }

  lemma LinesOfText(ls: seq<string>)
    requires NoBreaks(ls)
    ensures Lines(Unlines(ls)) == ls + [""]
  {
    LinesUnlines(ls, "");
    assert Unlines(ls) + "" == Unlines(ls);
    LinesSingle("");
  }

  lemma UnlinesCons(l: string, ls: seq<string>)
    ensures Unlines([l] + ls) == l + "\n" + Unlines(ls)
  {
    assert ([l] + ls)[1..] == ls;
  }

  lemma SplitAt(s: string, i: nat)
    requires i < |s| && s[i] == '\n'
    ensures s == s[..i] + "\n" + s[i + 1..]
  {
  }

  /** A block of text followed by a newline is the lines of that block. */
  lemma {:induction false} UnlinesLines(s: string)
    ensures Unlines(Lines(s)) == s + "\n"
    decreases |s|
  {
    var i := IndexOf(s, '\n');
    if i == |s| {
      LinesSingle(s);
      assert Unlines([s]) == s + "\n" + Unlines([]);
    } else {
      var head, tail := s[..i], s[i + 1..];
      UnlinesLines(tail);
      UnlinesCons(head, Lines(tail));
      AppendAssoc(head + "\n", tail, "\n");
      SplitAt(s, i);
    }
  }

  lemma {:induction false} UnlinesConcat(a: seq<string>, b: seq<string>)
    ensures Unlines(a + b) == Unlines(a) + Unlines(b)
  {
    if a == [] {
      assert a + b == b;
    } else {
      assert (a + b)[1..] == a[1..] + b;
      UnlinesConcat(a[1..], b);
    }
  }

  lemma UnlinesOne(l: string)
    ensures Unlines([l]) == l + "\n"
  {
    UnlinesCons(l, []);
  }

  /** Lines as the parsers store them: trimmed, not empty, no line break. */
  predicate Stored(ls: seq<string>) {
    forall i :: 0 <= i < |ls| ==> ls[i] != "" && OneLine(ls[i])
  }

  lemma {:induction false} JoinStored(ls: seq<string>)
    requires Stored(ls) && ls != []
    ensures Trimmed(Join(ls)) && Join(ls) != ""
    ensures Join(ls)[0] == ls[0][0]
  {
    if |ls| > 1 {
      var tail := Join(ls[1..]);
      JoinStored(ls[1..]);
      assert Join(ls) == ls[0] + "\n" + tail;
      assert Join(ls)[|Join(ls)| - 1] == tail[|tail| - 1];
    }
  }

  /** What a flush computes from collected lines, read back as lines. */
  lemma StoredBlock(ls: seq<string>)
    requires Stored(ls)
    ensures Trim(Join(ls)) == Join(ls)
    ensures Join(ls) == "" <==> ls == []
    ensures ls != [] ==> Lines(Join(ls)) == ls
  {
    if ls != [] {
      JoinStored(ls);
      TrimId(Join(ls));
      LinesJoin(ls);
    }
  }

  /** The lines of a block; an empty block has none. */
  function BlockLines(s: string): (ls: seq<string>)
    ensures NoBreaks(ls)
  {
    if s == "" then [] else Lines(s)
  }

  lemma BlockOfJoin(ls: seq<string>)
    requires Stored(ls)
    ensures BlockLines(Trim(Join(ls))) == ls
  {
    StoredBlock(ls);
  }

  lemma {:induction false} JoinOfLines(s: string)
    ensures Join(Lines(s)) == s
    decreases |s|
  {
    var i := IndexOf(s, '\n');
    if i == |s| {
      LinesSingle(s);
    } else {
      var head, tail := s[..i], s[i + 1..];
      JoinOfLines(tail);
      assert ([head] + Lines(tail))[1..] == Lines(tail);
      assert s == head + "\n" + tail;
    }
  }

  lemma JoinOfBlock(s: string)
    ensures Join(BlockLines(s)) == s
  {
    if s != "" {
      JoinOfLines(s);
    }
  }

  // --- case folding ---

  /** unicode.ToLower, exact on every character that lowers to an ASCII letter. */
  function LowerChar(c: char): char {
    if 'A' <= c <= 'Z' then (c as int + 32) as char
    else if c == '\U{130}' then 'i'
    else if c == '\U{212A}' then 'k'
    else c
  }

  /** unicode.ToUpper, exact on every character that raises to an ASCII letter. */
  function UpperChar(c: char): char {
    if 'a' <= c <= 'z' then (c as int - 32) as char
    else if c == '\U{131}' then 'I'
    else if c == '\U{17F}' then 'S'
    else c
  }

  function ToLower(s: string): (r: string)
    ensures |r| == |s|
  {
    seq(|s|, i requires 0 <= i < |s| => LowerChar(s[i]))
  }

  function ToUpper(s: string): (r: string)
    ensures |r| == |s|
  {
    seq(|s|, i requires 0 <= i < |s| => UpperChar(s[i]))
  }
}
