/** The shell scanner: a mutable cursor over a command, and the pure fold over (quote, depth,
    tick) that it refines. */
module ShellScan {
  import opened Text

  /** Inside a quote, inside $( ) that deep, inside backquotes. */
  datatype State = State(quote: Option<char>, depth: nat, tick: bool)

  const TOP := State(None, 0, false)

  predicate Bare(st: State) {
    st.quote.None? && st.depth == 0 && !st.tick
  }

  /** One unit read: where the next one starts, the state after it, and its first character. */
  datatype Unit = Unit(next: nat, st: State, c: char)

  function CharAt(src: string, i: nat): Option<char> {
    if i < |src| then Some(src[i]) else None
  }

  /** The unit at i; None at the end of the text, a dangling backslash included. */
  function Advance(src: string, i: nat, st: State): (u: Option<Unit>)
    ensures u.Some? ==> i < |src| && i < u.value.next <= |src| && u.value.c == src[i]
  {
    if i >= |src| then None else
      var c := src[i];
      if c == '\\' && st.quote != Some('\'') then
        if i + 1 < |src| then Some(Unit(i + 2, st, c)) else None
      else if st.quote.Some? then Some(Unit(i + 1, if c == st.quote.value then st.(quote := None) else st, c))
      else if st.tick then Some(Unit(i + 1, if c == '`' then st.(tick := false) else st, c))
      else if c == '\'' || c == '"' then Some(Unit(i + 1, st.(quote := Some(c)), c))
      else if c == '`' then Some(Unit(i + 1, st.(tick := true), c))
      else if c == '$' && CharAt(src, i + 1) == Some('(') then Some(Unit(i + 2, st.(depth := st.depth + 1), c))
      else if st.depth > 0 && c == ')' then Some(Unit(i + 1, st.(depth := st.depth - 1), c))
      else Some(Unit(i + 1, st, c))
  }

  datatype Verdict = Separator(text: string) | Continue(next: nat)

  /** What a unit means for the gate: a bare separator, or nothing. && propagates failure. */
  function Judge(src: string, u: Unit): Verdict {
    if !Bare(u.st) then Continue(u.next)
    else if u.c == ';' then Separator(";")
    else if u.c == '|' then Separator(if CharAt(src, u.next) == Some('|') then "||" else "|")
    else if u.c == '&' then (if CharAt(src, u.next) == Some('&') then Continue(u.next + 1) else Separator("&"))
    else Continue(u.next)
  }

  /** The first top-level separator from i on. */
  function FirstSeparator(src: string, i: nat, st: State): Option<string>
    decreases |src| - i
  {
    match Advance(src, i, st)
    case None => None
    case Some(u) =>
      match Judge(src, u)
      case Separator(text) => Some(text)
      case Continue(next) => FirstSeparator(src, next, u.st)
  }

  /** Where the scan of a text ends: its state, or None on a dangling backslash. */
  function EndState(src: string, i: nat, st: State): Option<State>
    decreases |src| - i
  {
    if i >= |src| then Some(st)
    else match Advance(src, i, st)
      case None => None
      case Some(u) =>
        match Judge(src, u)
        case Separator(_) => EndState(src, u.next, u.st)
        case Continue(next) => EndState(src, next, u.st)
  }

  // --- the cursor ---

  class Scanner {
    const src: string
    var i: int
    var c: char
    var quote: Option<char>
    var depth: nat
    var tick: bool

    ghost predicate Valid()
      reads this
    {
      -1 <= i
    }

    ghost function Abs(): State
      reads this
    {
      State(quote, depth, tick)
    }

    constructor (src: string)
      ensures Valid() && this.src == src && i == -1 && Abs() == TOP
    {
      this.src, i, c, quote, depth, tick := src, -1, ' ', None, 0, false;
    }

    /** next: one unit, or false at the end. */
    method Next() returns (more: bool)
      requires Valid()
      modifies this
      ensures Valid() && old(i) < i
      ensures var u := Advance(src, old(i) + 1, old(Abs()));
              && (more <==> u.Some?)
              && (more ==> i + 1 == u.value.next && Abs() == u.value.st && c == u.value.c)
    {
      i := i + 1;
      if i >= |src| {
        return false;
      }
      c := src[i];
      if c == '\\' && quote != Some('\'') {
        i := i + 1;
        return i < |src|;
      }
      if quote.Some? {
        if c == quote.value {
          quote := None;
        }
      } else if tick {
        if c == '`' {
          tick := false;
        }
      } else if c == '\'' || c == '"' {
        quote := Some(c);
      } else if c == '`' {
        tick := true;
      } else if c == '$' && i + 1 < |src| && src[i + 1] == '(' {
        depth := depth + 1;
        i := i + 1;
      } else if depth > 0 && c == ')' {
        depth := depth - 1;
      }
      return true;
    }
  }

  /** topLevelSeparator. */
  method TopLevelSeparator(command: string) returns (sep: Option<string>)
    ensures sep == FirstSeparator(command, 0, TOP)
  {
    hide Advance;
    var s := new Scanner(command);
    while true
      invariant s.Valid() && s.src == command
      invariant FirstSeparator(command, s.i + 1, s.Abs()) == FirstSeparator(command, 0, TOP)
      decreases |command| - s.i
    {
      var more := s.Next();
      if !more {
        return None;
      }
      if !(s.quote.None? && s.depth == 0 && !s.tick) {
        continue;
      }
      if s.c == ';' {
        return Some(";");
      }
      if s.c == '|' {
        return Some(if s.i + 1 < |command| && command[s.i + 1] == '|' then "||" else "|");
      }
      if s.c == '&' {
        if s.i + 1 < |command| && command[s.i + 1] == '&' {
          s.i := s.i + 1;
          continue;
        }
        return Some("&");
      }
    }
  }

  // --- what the rule guarantees ---

  /** Only the four separators are ever reported, never &&. */
  lemma {:induction false} OnlySeparators(src: string, i: nat, st: State)
    ensures FirstSeparator(src, i, st).Some? ==> FirstSeparator(src, i, st).value in [";", "|", "||", "&"]
    decreases |src| - i
  {
    hide Advance;
    var u := Advance(src, i, st);
    if u.Some? && Judge(src, u.value).Continue? {
      OnlySeparators(src, Judge(src, u.value).next, u.value.st);
    }
  }

  /** A character that cannot complete a unit or a separator begun before it. */
  predicate Standalone(tail: string) {
    tail == "" || (tail[0] != '(' && tail[0] != '&' && tail[0] != '|')
  }

  /** No unit or separator at the end of p could be completed by what follows. */
  predicate Closed(p: string) {
    p == "" || (p[|p| - 1] != '$' && p[|p| - 1] != '&' && p[|p| - 1] != '|')
  }

  /** Text after p does not change how p itself reads, a dangling backslash excepted. */
  lemma AdvanceLocal(p: string, tail: string, i: nat, st: State)
    requires i < |p| && (Standalone(tail) || Closed(p)) && Advance(p, i, st).Some?
    ensures Advance(p + tail, i, st) == Advance(p, i, st)
    ensures Judge(p + tail, Advance(p, i, st).value) == Judge(p, Advance(p, i, st).value)
  {
    var u := Advance(p, i, st).value;
    assert forall k: nat :: k < |p| ==> CharAt(p + tail, k) == CharAt(p, k);
    assert tail != "" ==> CharAt(p + tail, |p|) == Some(tail[0]);
  }

  /** Scanning p and then a tail: what p reports, or what the tail reports from where p
      ended. */
  lemma {:induction false} SeparatorOfConcat(p: string, tail: string, i: nat, st: State)
    requires i <= |p| && (Standalone(tail) || Closed(p)) && EndState(p, i, st).Some?
    ensures FirstSeparator(p + tail, i, st)
         == (if FirstSeparator(p, i, st).Some? then FirstSeparator(p, i, st)
             else FirstSeparator(p + tail, |p|, EndState(p, i, st).value))
    decreases |p| - i
  {
    hide Advance, Judge;
    if i < |p| {
      var u := Advance(p, i, st);
      AdvanceLocal(p, tail, i, st);
      JudgeWithin(p, u.value);
      if Judge(p, u.value).Continue? {
        SeparatorOfConcat(p, tail, Judge(p, u.value).next, u.value.st);
      }
    } else {
      EndOfText(p, st);
    }
  }

  lemma EndOfText(p: string, st: State)
    ensures FirstSeparator(p, |p|, st).None? && EndState(p, |p|, st) == Some(st)
  {
  }

  lemma JudgeWithin(p: string, u: Unit)
    requires u.next <= |p|
    ensures Judge(p, u).Continue? ==> u.next <= Judge(p, u).next <= |p|
  {
  }

  /** Dropping a prefix: the scan depends only on the text ahead. */
  lemma {:induction false} Shifted(p: string, tail: string, k: nat, st: State)
    requires k <= |tail|
    ensures FirstSeparator(p + tail, |p| + k, st) == FirstSeparator(tail, k, st)
    decreases |tail| - k
  {
    hide Advance, Judge;
    ShiftedUnit(p, tail, k, st);
    var u := Advance(tail, k, st);
    if u.Some? {
      ShiftedJudge(p, tail, u.value);
      JudgeWithin(tail, u.value);
      if Judge(tail, u.value).Continue? {
        Shifted(p, tail, Judge(tail, u.value).next, u.value.st);
      }
    }
  }

  function ShiftUnit(u: Option<Unit>, offset: nat): Option<Unit> {
    if u.Some? then Some(Unit(offset + u.value.next, u.value.st, u.value.c)) else None
  }

  lemma ShiftedUnit(p: string, tail: string, k: nat, st: State)
    requires k <= |tail|
    ensures Advance(p + tail, |p| + k, st) == ShiftUnit(Advance(tail, k, st), |p|)
  {
    assert forall j: nat :: CharAt(p + tail, |p| + j) == CharAt(tail, j);
    assert k < |tail| ==> (p + tail)[|p| + k] == tail[k];
    assert CharAt(p + tail, |p| + (k + 1)) == CharAt(tail, k + 1);
  }

  lemma ShiftedJudge(p: string, tail: string, u: Unit)
    ensures Judge(p + tail, Unit(|p| + u.next, u.st, u.c))
         == match Judge(tail, u) case Separator(text) => Separator(text) case Continue(next) => Continue(|p| + next)
  {
    assert CharAt(p + tail, |p| + u.next) == CharAt(tail, u.next);
  }

  /** A top-level ; is never missed: whatever stands before it, if it reads as complete, and
      whatever follows. */
  lemma SemicolonIsFlagged(p: string, q: string)
    requires EndState(p, 0, TOP) == Some(TOP)
    ensures FirstSeparator(p + (";" + q), 0, TOP).Some?
    ensures FirstSeparator(p, 0, TOP).None? ==> FirstSeparator(p + (";" + q), 0, TOP) == Some(";")
  {
    hide FirstSeparator, EndState;
    SeparatorOfConcat(p, ";" + q, 0, TOP);
    Shifted(p, ";" + q, 0, TOP);
    SemicolonFirst(q);
  }

  lemma SemicolonFirst(q: string)
    ensures FirstSeparator(";" + q, 0, TOP) == Some(";")
  {
    assert (";" + q)[0] == ';';
  }

  // --- quoting and substitution ---

  /** p is read completely, back to the top level, without a separator. */
  predicate Complete(p: string) {
    EndState(p, 0, TOP) == Some(TOP) && FirstSeparator(p, 0, TOP).None?
  }

  datatype Opener = Single | Double | Backquote | Substitution

  function OpenText(o: Opener): string {
    match o
    case Single => "'"
    case Double => "\""
    case Backquote => "`"
    case Substitution => "$("
  }

  function CloseText(o: Opener): string {
    match o
    case Single => "'"
    case Double => "\""
    case Backquote => "`"
    case Substitution => ")"
  }

  /** The state right after the opener. */
  function Inner(o: Opener): State {
    match o
    case Single => TOP.(quote := Some('\''))
    case Double => TOP.(quote := Some('"'))
    case Backquote => TOP.(tick := true)
    case Substitution => TOP.(depth := 1)
  }

  function Enclosed(o: Opener, data: string): string {
    OpenText(o) + (data + CloseText(o))
  }

  /** After p, the word leaves the verdict to what follows it. */
  predicate Transparent(p: string, word: string, rest: string) {
    FirstSeparator(p + (word + rest), 0, TOP) == FirstSeparator(rest, 0, TOP)
  }

  lemma OpenerRead(o: Opener, tail: string)
    ensures FirstSeparator(OpenText(o) + tail, 0, TOP) == FirstSeparator(tail, 0, Inner(o))
  {
    var src := OpenText(o) + tail;
    assert src[0] == OpenText(o)[0];
    if o.Substitution? {
      assert src[1] == '(';
    }
    assert FirstSeparator(src, 0, TOP) == FirstSeparator(src, |OpenText(o)|, Inner(o));
    hide FirstSeparator;
    Shifted(OpenText(o), tail, 0, Inner(o));
  }

  /** What the scan of an enclosed word comes to. */
  lemma EnclosedRead(p: string, o: Opener, data: string, rest: string)
    requires Complete(p) && EndState(data + CloseText(o), 0, Inner(o)).Some?
    ensures var body := data + CloseText(o);
            FirstSeparator(p + (Enclosed(o, data) + rest), 0, TOP)
            == (if FirstSeparator(body, 0, Inner(o)).Some? then FirstSeparator(body, 0, Inner(o))
                else FirstSeparator(rest, 0, EndState(body, 0, Inner(o)).value))
  {
    hide FirstSeparator, EndState;
    var body := data + CloseText(o);
    assert Enclosed(o, data) + rest == OpenText(o) + (body + rest);
    SeparatorOfConcat(p, OpenText(o) + (body + rest), 0, TOP);
    Shifted(p, OpenText(o) + (body + rest), 0, TOP);
    OpenerRead(o, body + rest);
    assert Closed(body);
    SeparatorOfConcat(body, rest, 0, Inner(o));
    Shifted(body, rest, 0, EndState(body, 0, Inner(o)).value);
  }

  /** Only a backslash can be left dangling. */
  lemma {:induction false} EndsWhole(src: string, i: nat, st: State)
    requires i <= |src| && src != "" && src[|src| - 1] != '\\'
    ensures EndState(src, i, st).Some?
    decreases |src| - i
  {
    if i < |src| {
      NoDangling(src, i, st);
      var u := Advance(src, i, st).value;
      hide Advance, Judge;
      JudgeWithin(src, u);
      EndsWhole(src, if Judge(src, u).Continue? then Judge(src, u).next else u.next, u.st);
    }
  }

  lemma NoDangling(src: string, i: nat, st: State)
    requires i < |src| && src[|src| - 1] != '\\'
    ensures Advance(src, i, st).Some?
  {
  }

  /** The scanner knows two quotes. */
  predicate RealQuote(st: State) {
    st.quote.None? || st.quote == Some('\'') || st.quote == Some('"')
  }

  lemma {:induction false} QuotesReal(src: string, i: nat, st: State)
    requires RealQuote(st)
    ensures EndState(src, i, st).Some? ==> RealQuote(EndState(src, i, st).value)
    decreases |src| - i
  {
    if i < |src| {
      QuoteStaysReal(src, i, st);
      hide Advance, RealQuote;
      var u := Advance(src, i, st);
      if u.Some? {
        QuotesReal(src, if Judge(src, u.value).Continue? then Judge(src, u.value).next else u.value.next, u.value.st);
      }
    }
  }

  lemma QuoteStaysReal(src: string, i: nat, st: State)
    requires RealQuote(st)
    ensures Advance(src, i, st).Some? ==> RealQuote(Advance(src, i, st).value.st)
  {
  }

  /** A semicolon is a separator only at the top level. */
  lemma SemicolonShows(st: State)
    requires RealQuote(st)
    ensures FirstSeparator(";", 0, st).Some? <==> st == TOP
  {
    assert Advance(";", 0, st) == Some(Unit(1, st, ';'));
    assert FirstSeparator(";", 1, st).None?;
  }

  /** A quoted or substituted word is invisible to the rule, whatever follows it, if and only
      if its own text, read from inside the opener, holds no separator and ends back at the
      top level. */
  lemma EnclosedIff(p: string, o: Opener, data: string)
    requires Complete(p)
    ensures (forall rest :: Transparent(p, Enclosed(o, data), rest))
         <==> FirstSeparator(data + CloseText(o), 0, Inner(o)).None? &&
              EndState(data + CloseText(o), 0, Inner(o)) == Some(TOP)
  {
    hide FirstSeparator, EndState, Complete, Enclosed;
    var body := data + CloseText(o);
    EndsWhole(body, 0, Inner(o));
    QuotesReal(body, 0, Inner(o));
    forall rest
      ensures Transparent(p, Enclosed(o, data), rest)
         <==> (if FirstSeparator(body, 0, Inner(o)).Some?
               then FirstSeparator(body, 0, Inner(o)) == FirstSeparator(rest, 0, TOP)
               else FirstSeparator(rest, 0, EndState(body, 0, Inner(o)).value) == FirstSeparator(rest, 0, TOP))
    {
      EnclosedRead(p, o, data, rest);
    }
    if forall rest :: Transparent(p, Enclosed(o, data), rest) {
      assert Transparent(p, Enclosed(o, data), "") && Transparent(p, Enclosed(o, data), ";");
      EndOfText("", TOP);
      SemicolonShows(TOP);
      SemicolonShows(EndState(body, 0, Inner(o)).value);
    }
  }

  /** Every unit from i on leaves the scan inside: where it ends, None as soon as one is back
      at the top level or incomplete. */
  function Inside(data: string, i: nat, st: State): Option<State>
    decreases |data| - i
  {
    if i >= |data| then Some(st)
    else match Advance(data, i, st)
      case None => None
      case Some(u) => if Bare(u.st) then None else Inside(data, u.next, u.st)
  }

  lemma {:induction false} InsideReads(data: string, tail: string, i: nat, st: State)
    requires i <= |data| && Inside(data, i, st).Some? && Standalone(tail)
    ensures EndState(data + tail, i, st) == EndState(tail, 0, Inside(data, i, st).value)
    ensures FirstSeparator(data + tail, i, st) == FirstSeparator(tail, 0, Inside(data, i, st).value)
    decreases |data| - i
  {
    hide Advance;
    if i < |data| {
      var u := Advance(data, i, st).value;
      AdvanceLocal(data, tail, i, st);
      InsideReads(data, tail, u.next, u.st);
    } else {
      Shifted(data, tail, 0, st);
      ShiftedEnd(data, tail, 0, st);
    }
  }

  lemma {:induction false} ShiftedEnd(p: string, tail: string, k: nat, st: State)
    requires k <= |tail|
    ensures EndState(p + tail, |p| + k, st) == EndState(tail, k, st)
    decreases |tail| - k
  {
    hide Advance, Judge;
    ShiftedUnit(p, tail, k, st);
    var u := Advance(tail, k, st);
    if u.Some? {
      ShiftedJudge(p, tail, u.value);
      JudgeWithin(tail, u.value);
      ShiftedEnd(p, tail, if Judge(tail, u.value).Continue? then Judge(tail, u.value).next
                 else u.value.next, u.value.st);
    }
  }

  lemma CloserRead(o: Opener)
    ensures EndState(CloseText(o), 0, Inner(o)) == Some(TOP) && FirstSeparator(CloseText(o), 0, Inner(o)).None?
  {
    assert Advance(CloseText(o), 0, Inner(o)) == Some(Unit(1, TOP, CloseText(o)[0]));
  }

  /** Data that the scan stays inside of, back at the opener's own level where the closer
      stands, is never flagged: any $( ) or backquoted text, quotes and escapes in it
      included. */
  lemma InsideIsData(p: string, o: Opener, data: string, rest: string)
    requires Complete(p) && Inside(data, 0, Inner(o)) == Some(Inner(o))
    ensures Transparent(p, Enclosed(o, data), rest)
  {
    hide Transparent, FirstSeparator, EndState, Inside, Complete;
    InsideReads(data, CloseText(o), 0, Inner(o));
    CloserRead(o);
    EnclosedIff(p, o, data);
  }

  /** Inside a quote only the quote itself, unescaped, changes the state. */
  lemma {:induction false} QuoteHolds(data: string, i: nat, quote: char)
    ensures Inside(data, i, TOP.(quote := Some(quote))).Some?
            ==> Inside(data, i, TOP.(quote := Some(quote))) == Some(TOP.(quote := Some(quote)))
    decreases |data| - i
  {
    if i < |data| {
      QuoteHolds(data, i + 1, quote);
      QuoteHolds(data, i + 2, quote);
    }
  }

  /** Quoted data is never flagged: single quotes hold anything but their own kind, double
      quotes anything whose escapes are whole and whose double quotes are escaped. */
  lemma QuotedIsData(p: string, o: Opener, data: string, rest: string)
    requires Complete(p) && (o.Single? || o.Double?) && Inside(data, 0, Inner(o)).Some?
    ensures Transparent(p, Enclosed(o, data), rest)
  {
    hide Transparent, Complete;
    QuoteHolds(data, 0, if o.Single? then '\'' else '"');
    InsideIsData(p, o, data, rest);
  }

  /** For single quotes that is exactly: no single quote in the data. */
  lemma {:induction false} SingleQuoteIff(data: string, i: nat)
    requires i <= |data|
    ensures Inside(data, i, Inner(Single)).Some? <==> '\'' !in data[i..]
    decreases |data| - i
  {
    if i < |data| {
      SingleQuoteIff(data, i + 1);
      assert data[i..] == [data[i]] + data[i + 1..];
    }
  }

  /** How many backslashes end right before position k. */
  function Slashes(data: string, k: nat): nat
    requires k <= |data|
  {
    if k > 0 && data[k - 1] == '\\' then 1 + Slashes(data, k - 1) else 0
  }

  /** From i on every closer is escaped, by an odd number of backslashes, and no escape is left
      open at the end. */
  predicate EscapesWhole(data: string, i: nat, closer: char) {
    && (forall k :: i <= k < |data| && data[k] == closer ==> Slashes(data, k) % 2 == 1)
    && Slashes(data, |data|) % 2 == 0
  }

  lemma EscapesStep(data: string, i: nat, closer: char)
    requires i < |data| && Slashes(data, i) % 2 == 0 && closer != '\\'
    ensures data[i] == '\\' && i + 1 < |data| ==>
              Slashes(data, i + 2) % 2 == 0 && (EscapesWhole(data, i, closer) <==> EscapesWhole(data, i + 2, closer))
    ensures data[i] == '\\' && i + 1 == |data| ==> !EscapesWhole(data, i, closer)
    ensures data[i] != '\\' ==>
              Slashes(data, i + 1) % 2 == 0
              && (EscapesWhole(data, i, closer) <==> data[i] != closer && EscapesWhole(data, i + 1, closer))
  {
    if data[i] == '\\' {
      assert Slashes(data, i + 1) == Slashes(data, i) + 1;
    }
  }

  /** Inside double quotes, and inside backquotes, the scan stays to the end of the data if and
      only if every closer in it is escaped and every escape is whole. */
  lemma {:induction false} EscapedIff(o: Opener, data: string, i: nat)
    requires (o.Double? || o.Backquote?) && i <= |data| && Slashes(data, i) % 2 == 0
    ensures Inside(data, i, Inner(o)).Some? <==> EscapesWhole(data, i, CloseText(o)[0])
    ensures Inside(data, i, Inner(o)).Some? ==> Inside(data, i, Inner(o)) == Some(Inner(o))
    decreases |data| - i
  {
    if i < |data| {
      EscapesStep(data, i, CloseText(o)[0]);
      hide EscapesWhole, Slashes;
      if data[i] != '\\' {
        EscapedIff(o, data, i + 1);
      } else if i + 1 < |data| {
        EscapedIff(o, data, i + 2);
      }
    }
  }

  /** No quote, no backquote, no backslash. */
  predicate Plain(data: string) {
    forall k :: 0 <= k < |data| ==> data[k] != '\'' && data[k] != '"' && data[k] != '`' && data[k] != '\\'
  }

  /** Openings $( before position k, less closing parentheses. */
  function Balance(data: string, k: nat): int
    requires k <= |data|
  {
    if k == 0 then 0
    else Balance(data, k - 1)
         + (if data[k - 1] == ')' then -1 else if k > 1 && data[k - 2] == '$' && data[k - 1] == '(' then 1 else 0)
  }

  /** Between units: position i does not split a $(. */
  predicate BetweenUnits(data: string, i: nat)
    requires i <= |data|
  {
    !(0 < i < |data| && data[i - 1] == '$' && data[i] == '(')
  }

  predicate StaysOpen(data: string, i: nat) {
    forall k :: i <= k <= |data| ==> Balance(data, k) >= 0
  }

  function Deep(depth: nat): State {
    TOP.(depth := depth)
  }

  predicate Opens(data: string, i: nat)
    requires i < |data|
  {
    data[i] == '$' && CharAt(data, i + 1) == Some('(')
  }

  lemma PlainUnit(data: string, i: nat, depth: nat)
    requires Plain(data) && i < |data| && depth > 0
    ensures Advance(data, i, Deep(depth))
         == Some(if Opens(data, i) then Unit(i + 2, Deep(depth + 1), data[i])
                 else Unit(i + 1, Deep(if data[i] == ')' then depth - 1 else depth), data[i]))
  {
  }

  lemma {:induction false} PlainInside(data: string, i: nat)
    requires Plain(data) && i <= |data| && BetweenUnits(data, i) && Balance(data, i) >= 0
    ensures Inside(data, i, Deep(1 + Balance(data, i)))
         == if StaysOpen(data, i) then Some(Deep(1 + Balance(data, |data|))) else None
    decreases |data| - i
  {
    hide Advance, Plain;
    if i < |data| {
      var b := Balance(data, i);
      PlainUnit(data, i, 1 + b);
      if Opens(data, i) {
        assert Balance(data, i + 1) == b && Balance(data, i + 2) == b + 1;
        PlainInside(data, i + 2);
        assert StaysOpen(data, i) <==> StaysOpen(data, i + 2);
      } else {
        assert Balance(data, i + 1) == if data[i] == ')' then b - 1 else b;
        assert StaysOpen(data, i) <==> Balance(data, i + 1) >= 0 && StaysOpen(data, i + 1);
        if Balance(data, i + 1) >= 0 {
          PlainInside(data, i + 1);
        }
      }
    }
  }

  /** Plain data of a substitution is back at the level of its opener if and only if its closing
      parentheses never outrun its openings $( and equal them at the end. */
  lemma PlainSubstitutionIff(data: string)
    requires Plain(data)
    ensures Inside(data, 0, Inner(Substitution)) == Some(Inner(Substitution))
            <==> StaysOpen(data, 0) && Balance(data, |data|) == 0
  {
    PlainInside(data, 0);
  }

  /** An escaped quote does not end the quoted text, so the bar behind it stays data. */
  lemma EscapedQuoteIsData(p: string, rest: string)
    requires Complete(p)
    ensures Transparent(p, Enclosed(Double, "a\\\"|b"), rest)
  {
    hide Transparent, Complete, Enclosed;
    var data := "a\\\"|b";
    assert data == ['a', '\\', '"', '|', 'b'];
    assert Inside(data, 4, Inner(Double)).Some?;
    assert Inside(data, 3, Inner(Double)).Some?;
    assert Inside(data, 1, Inner(Double)).Some?;
    QuotedIsData(p, Double, data, rest);
  }

  /** A backslash makes the next character data, whatever it is. */
  lemma EscapedIsData(p: string, c: char, rest: string)
    requires Complete(p)
    ensures Transparent(p, ['\\', c], rest)
  {
    var pair := ['\\', c];
    assert (pair + rest)[0] == '\\' && |pair + rest| >= 2;
    assert FirstSeparator(pair + rest, 0, TOP) == FirstSeparator(pair + rest, 2, TOP);
    hide FirstSeparator, EndState;
    SeparatorOfConcat(p, pair + rest, 0, TOP);
    Shifted(p, pair + rest, 0, TOP);
    Shifted(pair, rest, 0, TOP);
  }

  /** A dangling backslash swallows the separator after it: the precondition on p is needed. */
  lemma EscapedSemicolonIsData()
    ensures EndState("a\\", 0, TOP).None? && FirstSeparator("a\\" + (";" + "b"), 0, TOP).None?
  {
    var s := "a\\;b";
    assert "a\\" + (";" + "b") == s;
    assert Advance(s, 0, TOP) == Some(Unit(1, TOP, 'a'));
    assert Advance(s, 1, TOP) == Some(Unit(3, TOP, '\\'));
    assert Advance(s, 3, TOP) == Some(Unit(4, TOP, 'b'));
    assert FirstSeparator(s, 4, TOP).None?;
    assert FirstSeparator(s, 3, TOP).None?;
    assert FirstSeparator(s, 1, TOP).None?;
    assert Advance("a\\", 0, TOP) == Some(Unit(1, TOP, 'a'));
  }

  /** Only $( opens a level but every ) closes one, so a subshell inside a substitution ends
      it early and data after it is flagged. */
  lemma NestedParensAreFlagged()
    ensures FirstSeparator("$( (a);b)", 0, TOP) == Some(";")
  {
    var s, deep := "$( (a);b)", State(None, 1, false);
    assert Advance(s, 0, TOP) == Some(Unit(2, deep, '$'));
    assert Advance(s, 2, deep) == Some(Unit(3, deep, ' '));
    assert Advance(s, 3, deep) == Some(Unit(4, deep, '('));
    assert Advance(s, 4, deep) == Some(Unit(5, deep, 'a'));
    assert Advance(s, 5, deep) == Some(Unit(6, TOP, ')'));
    assert Advance(s, 6, TOP) == Some(Unit(7, TOP, ';'));
    assert FirstSeparator(s, 6, TOP) == Some(";");
    assert FirstSeparator(s, 5, deep) == Some(";");
    assert FirstSeparator(s, 4, deep) == Some(";");
    assert FirstSeparator(s, 3, deep) == Some(";");
    assert FirstSeparator(s, 2, deep) == Some(";");
  }
}
