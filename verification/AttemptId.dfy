/** AttemptID before the hash: sorted, length-prefixed files and targets. */
module AttemptId {
  import opened Text
  import opened Seqs

  datatype File = File(path: string, content: string)

  // --- byte order ---

  /** sort.Strings' order. */
  predicate Below(a: string, b: string) {
    b != [] && (a == [] || a[0] < b[0] || (a[0] == b[0] && Below(a[1..], b[1..])))
  }

  lemma {:induction false} BelowTotal(a: string, b: string)
    ensures a != b ==> Below(a, b) || Below(b, a)
    ensures Below(a, b) ==> a != b && !Below(b, a)
  {
    if a != [] && b != [] {
      BelowTotal(a[1..], b[1..]);
      assert a == [a[0]] + a[1..] && b == [b[0]] + b[1..];
    }
  }

  lemma {:induction false} BelowTrans(a: string, b: string, c: string)
    requires Below(a, b) && Below(b, c)
    ensures Below(a, c)
  {
    if a != [] && a[0] == b[0] && b[0] == c[0] {
      BelowTrans(a[1..], b[1..], c[1..]);
    }
  }

  // --- sorting by a key ---

  predicate SortedBy<T>(key: T -> string, xs: seq<T>) {
    forall i, j :: 0 <= i < j < |xs| ==> !Below(key(xs[j]), key(xs[i]))
  }

  /** Where x goes: after everything not above it. */
  method Insert<T>(key: T -> string, xs: seq<T>, x: T) returns (ys: seq<T>)
    requires SortedBy(key, xs)
    ensures SortedBy(key, ys) && multiset(ys) == multiset(xs) + multiset{x}
  {
    hide SortedBy, Below;
    var k: nat := |xs|;
    while k > 0 && Below(key(x), key(xs[k - 1]))
      invariant k <= |xs| && forall i :: k <= i < |xs| ==> Below(key(x), key(xs[i]))
    {
      k := k - 1;
    }
    Inserted(key, xs, x, k);
    ys := xs[..k] + [x] + xs[k..];
    assert xs == xs[..k] + xs[k..];
  }

  lemma Inserted<T>(key: T -> string, xs: seq<T>, x: T, k: nat)
    requires SortedBy(key, xs) && k <= |xs| && (k > 0 ==> !Below(key(x), key(xs[k - 1])))
    requires forall i :: k <= i < |xs| ==> Below(key(x), key(xs[i]))
    ensures SortedBy(key, xs[..k] + [x] + xs[k..])
  {
    forall i | 0 <= i < k
      ensures !Below(key(x), key(xs[i]))
    {
      if Below(key(x), key(xs[i])) && i < k - 1 {
        NotAbove(key(x), key(xs[i]), key(xs[k - 1]));
      }
    }
    forall i | k <= i < |xs|
      ensures !Below(key(xs[i]), key(x))
    {
      BelowTotal(key(x), key(xs[i]));
    }
  }

  /** a below b, and c not below b, puts a below c. */
  lemma NotAbove(a: string, b: string, c: string)
    requires Below(a, b) && !Below(c, b)
    ensures Below(a, c)
  {
    BelowTotal(b, c);
    if b != c {
      BelowTrans(a, b, c);
    }
  }

  method SortBy<T>(key: T -> string, xs: seq<T>) returns (ys: seq<T>)
    ensures SortedBy(key, ys) && multiset(ys) == multiset(xs)
  {
    hide SortedBy;
    ys := [];
    NoneSorted(key);
    for k := 0 to |xs|
      invariant SortedBy(key, ys) && multiset(ys) == multiset(xs[..k])
    {
      ys := Insert(key, ys, xs[k]);
      assert xs[..k + 1] == xs[..k] + [xs[k]];
    }
    assert xs[..|xs|] == xs;
  }

  lemma NoneSorted<T>(key: T -> string)
    ensures SortedBy(key, [])
  {
  }

  /** Equal keys mean equal elements. */
  predicate KeyDetermines<T(==)>(key: T -> string, xs: seq<T>) {
    forall i, j :: 0 <= i < |xs| && 0 <= j < |xs| && key(xs[i]) == key(xs[j]) ==> xs[i] == xs[j]
  }

  /** The first of a sorted list is below nothing in it. */
  lemma SameHead<T>(key: T -> string, a: seq<T>, b: seq<T>)
    requires a != [] && b != [] && SortedBy(key, a) && SortedBy(key, b) && multiset(a) == multiset(b)
             && KeyDetermines(key, a)
    ensures a[0] == b[0]
  {
    hide Below;
    assert b[0] in multiset(b) && a[0] in multiset(a);
    assert b[0] in a && a[0] in b;
    BelowTotal(key(a[0]), key(b[0]));
    var i :| 0 <= i < |a| && a[i] == b[0];
    var j :| 0 <= j < |b| && b[j] == a[0];
  }

  lemma TailMultiset<T>(a: seq<T>)
    requires a != []
    ensures multiset(a[1..]) == multiset(a) - multiset{a[0]}
  {
    assert a == [a[0]] + a[1..];
  }

  lemma TailSorted<T>(key: T -> string, a: seq<T>)
    requires a != [] && SortedBy(key, a)
    ensures SortedBy(key, a[1..]) && (KeyDetermines(key, a) ==> KeyDetermines(key, a[1..]))
  {
    hide Below;
  }

  /** A sorted list is fixed by its elements. */
  lemma {:induction false} SortedUnique<T>(key: T -> string, a: seq<T>, b: seq<T>)
    requires SortedBy(key, a) && SortedBy(key, b) && multiset(a) == multiset(b) && KeyDetermines(key, a)
    ensures a == b
  {
    hide SortedBy, KeyDetermines;
    assert |multiset(a)| == |a| && |multiset(b)| == |b|;
    if a != [] {
      SameHead(key, a, b);
      TailSorted(key, a);
      TailSorted(key, b);
      TailMultiset(a);
      TailMultiset(b);
      SortedUnique(key, a[1..], b[1..]);
      assert a == [a[0]] + a[1..] && b == [b[0]] + b[1..];
    }
  }

  // --- the code ---

  function Digit(d: nat): char
    requires d < 10
  {
    "0123456789"[d]
  }

  /** %d of a length. */
  function Decimal(n: nat): (s: string)
    ensures s != "" && ':' !in s
  {
    if n < 10 then [Digit(n)] else Decimal(n / 10) + [Digit(n % 10)]
  }

  lemma DigitInjective(a: nat, b: nat)
    requires a < 10 && b < 10 && Digit(a) == Digit(b)
    ensures a == b
  {
  }

  lemma {:induction false} DecimalInjective(m: nat, n: nat)
    requires Decimal(m) == Decimal(n)
    ensures m == n
  {
    var a, b := Decimal(m), Decimal(n);
    assert (m >= 10 <==> |a| > 1) && (n >= 10 <==> |b| > 1);
    assert a[|a| - 1] == Digit(m % 10) && b[|b| - 1] == Digit(n % 10);
    DigitInjective(m % 10, n % 10);
    if m >= 10 && n >= 10 {
      assert a[..|a| - 1] == Decimal(m / 10) && b[..|b| - 1] == Decimal(n / 10);
      DecimalInjective(m / 10, n / 10);
    }
  }

  /** A length-prefixed string. */
  function Field(s: string): string {
    Decimal(|s|) + ":" + s
  }

  function FileCode(f: File): string {
    "f" + (Field(f.path) + Field(f.content))
  }

  function TargetCode(t: string): string {
    "t" + Field(t)
  }

  /** What is fed to the hash, for lists in the order given. */
  function Code(files: seq<File>, targets: seq<string>): string {
    FlatMap(FileCode, files) + FlatMap(TargetCode, targets)
  }

  /** A field can be read back off the front of anything. */
  lemma FieldCancels(a: string, b: string, x: string, y: string)
    requires Field(a) + x == Field(b) + y
    ensures a == b && x == y
  {
    var m, n := Decimal(|a|), Decimal(|b|);
    hide Decimal;
    assert Field(a) + x == m + [':'] + (a + x) && Field(b) + y == n + [':'] + (b + y);
    IndexOfUnique(m, a + x, n, b + y, ':');
    DecimalInjective(|a|, |b|);
    assert (a + x)[..|a|] == a && (b + y)[..|b|] == b;
    PrefixCancels(a, x, y);
  }

  lemma FileCancels(f: File, g: File, x: string, y: string)
    requires FileCode(f) + x == FileCode(g) + y
    ensures f == g && x == y
  {
    hide Field;
    var a, b := FileCode(f) + x, FileCode(g) + y;
    assert a[1..] == Field(f.path) + (Field(f.content) + x) && b[1..] == Field(g.path) + (Field(g.content) + y);
    FieldCancels(f.path, g.path, Field(f.content) + x, Field(g.content) + y);
    FieldCancels(f.content, g.content, x, y);
  }

  lemma TargetCancels(s: string, t: string, x: string, y: string)
    requires TargetCode(s) + x == TargetCode(t) + y
    ensures s == t && x == y
  {
    hide Field;
    var a, b := TargetCode(s) + x, TargetCode(t) + y;
    assert a[1..] == Field(s) + x && b[1..] == Field(t) + y;
    FieldCancels(s, t, x, y);
  }

  lemma {:induction false} TargetsInjective(s: seq<string>, t: seq<string>)
    requires FlatMap(TargetCode, s) == FlatMap(TargetCode, t)
    ensures s == t
  {
    hide Field;
    assert (s != [] ==> |FlatMap(TargetCode, s)| > 0) && (t != [] ==> |FlatMap(TargetCode, t)| > 0);
    if s != [] && t != [] {
      TargetCancels(s[0], t[0], FlatMap(TargetCode, s[1..]), FlatMap(TargetCode, t[1..]));
      TargetsInjective(s[1..], t[1..]);
      assert s == [s[0]] + s[1..] && t == [t[0]] + t[1..];
    }
  }

  lemma TargetsStart(t: seq<string>)
    ensures FlatMap(TargetCode, t) == "" || FlatMap(TargetCode, t)[0] == 't'
  {
    hide Field;
  }

  lemma FilesStart(fs: seq<File>, rest: string)
    requires fs != []
    ensures (FlatMap(FileCode, fs) + rest) != "" && (FlatMap(FileCode, fs) + rest)[0] == 'f'
  {
    hide Field;
  }

  /** The bytes fed to the hash determine every file and every target: no other attempt, in
      canonical order, feeds it the same. */
  lemma {:induction false} CodeInjective(fs: seq<File>, s: seq<string>, gs: seq<File>, t: seq<string>)
    requires Code(fs, s) == Code(gs, t)
    ensures fs == gs && s == t
  {
    hide FileCode, TargetCode;
    var x, y := FlatMap(TargetCode, s), FlatMap(TargetCode, t);
    TargetsStart(s);
    TargetsStart(t);
    assert [] + x == x && [] + y == y;
    if fs == [] && gs == [] {
      TargetsInjective(s, t);
    } else if fs == [] {
      FilesStart(gs, y);
    } else if gs == [] {
      FilesStart(fs, x);
    } else {
      AppendAssoc(FileCode(fs[0]), FlatMap(FileCode, fs[1..]), x);
      AppendAssoc(FileCode(gs[0]), FlatMap(FileCode, gs[1..]), y);
      FileCancels(fs[0], gs[0], Code(fs[1..], s), Code(gs[1..], t));
      CodeInjective(fs[1..], s, gs[1..], t);
      assert fs == [fs[0]] + fs[1..] && gs == [gs[0]] + gs[1..];
    }
  }

  function PathOf(f: File): string {
    f.path
  }

  function Itself(t: string): string {
    t
  }

  /** The bytes of some sorted arrangement of these files and targets. */
  ghost predicate IsInputOf(code: string, files: seq<File>, targets: seq<string>) {
    exists fs, ts ::
      && SortedBy(PathOf, fs) && multiset(fs) == multiset(files) && SortedBy(Itself, ts)
         && multiset(ts) == multiset(targets)
      && code == Code(fs, ts)
  }

  /** AttemptID up to the hash: local copies sorted, then two append loops. */
  method HashInput(files: seq<File>, targets: seq<string>) returns (code: string)
    ensures IsInputOf(code, files, targets)
  {
    hide SortedBy, FileCode, TargetCode, FlatMap;
    var fs := SortBy(PathOf, files);
    var ts := SortBy(Itself, targets);
    code := "";
    CodeStart(fs, ts);
    for k := 0 to |fs|
      invariant code == FlatMap(FileCode, fs[..k])
    {
      FlatMapSnoc(FileCode, fs, k);
      code := code + FileCode(fs[k]);
    }
    assert fs[..|fs|] == fs;
    ghost var front := code;
    assert front + [] == front;
    for k := 0 to |ts|
      invariant code == front + FlatMap(TargetCode, ts[..k])
    {
      FlatMapSnoc(TargetCode, ts, k);
      AppendAssoc(front, FlatMap(TargetCode, ts[..k]), TargetCode(ts[k]));
      code := code + TargetCode(ts[k]);
    }
    assert ts[..|ts|] == ts;
    assert code == Code(fs, ts);
  }

  lemma CodeStart(fs: seq<File>, ts: seq<string>)
    ensures FlatMap(FileCode, fs[..0]) == "" && FlatMap(TargetCode, ts[..0]) == ""
  {
  }

  predicate DistinctPaths(files: seq<File>) {
    forall i, j :: 0 <= i < j < |files| ==> files[i].path != files[j].path
  }

  /** With distinct paths the bytes depend on which files and targets there are, not on the
      order they come in; and they tell any two such attempts apart. */
  lemma SameInputIff(a: string, fs: seq<File>, s: seq<string>, b: string, gs: seq<File>, t: seq<string>)
    requires DistinctPaths(fs) && IsInputOf(a, fs, s) && IsInputOf(b, gs, t)
    ensures a == b <==> multiset(fs) == multiset(gs) && multiset(s) == multiset(t)
  {
    hide SortedBy, Code, KeyDetermines, DistinctPaths;
    var fs1, s1 :| SortedBy(PathOf, fs1) && multiset(fs1) == multiset(fs) && SortedBy(Itself, s1)
        && multiset(s1) == multiset(s)
                   && a == Code(fs1, s1);
    var gs1, t1 :| SortedBy(PathOf, gs1) && multiset(gs1) == multiset(gs) && SortedBy(Itself, t1)
        && multiset(t1) == multiset(t)
                   && b == Code(gs1, t1);
    if a == b {
      CodeInjective(fs1, s1, gs1, t1);
    }
    if multiset(fs) == multiset(gs) && multiset(s) == multiset(t) {
      PathsDetermine(fs, fs1);
      SortedUnique(PathOf, fs1, gs1);
      NamesDetermine(s1);
      SortedUnique(Itself, s1, t1);
    }
  }

  lemma NamesDetermine(s: seq<string>)
    ensures KeyDetermines(Itself, s)
  {
  }

  lemma PathsDetermine(fs: seq<File>, sorted: seq<File>)
    requires DistinctPaths(fs) && multiset(sorted) == multiset(fs)
    ensures KeyDetermines(PathOf, sorted)
  {
    forall i, j | 0 <= i < |sorted| && 0 <= j < |sorted| && sorted[i].path == sorted[j].path
      ensures sorted[i] == sorted[j]
    {
      assert sorted[i] in multiset(sorted) && sorted[j] in multiset(sorted);
      assert sorted[i] in fs && sorted[j] in fs;
    }
  }
}
