/** The repo standards file: strict validation, and the record identity of a standard. */
module StandardsFile {
  import opened Seqs
  import opened Text

  datatype Severity = Must | Should | May

  datatype Standard = Standard(id: string, text: string, severity: Severity, roles: seq<string>)

  /** A decoded entry, before validation. */
  datatype RawStandard = RawStandard(id: string, text: string, severity: string, roles: seq<string>)

  datatype RawFile = RawFile(version: int, standards: seq<RawStandard>)

  datatype Defect =
    | BadVersion
    | TooMany
    | NoId(index: nat)
    | BadId(id: string)
    | DuplicateId(id: string)
    | EmptyText(id: string)
    | ControlByte(id: string)
    | BadSeverity(id: string)
    | BadRole(id: string, role: string)
    | RoleTwice(id: string, role: string)
    | TooLong(id: string)
    | Alias(prior: string, id: string)

  datatype Result<+T> = Ok(value: T) | Err(defect: Defect)

  const FILE_VERSION := 1
  const MAX_STANDARDS: nat := 100
  const MAX_FORM_BYTES: nat := 320

  function Developer(): string { "developer" }

  function Reviewer(): string { "reviewer" }

  predicate ValidRole(r: string) {
    r == Developer() || r == Reviewer()
  }

  predicate IsKebabChar(c: char) {
    'a' <= c <= 'z' || '0' <= c <= '9' || c == '-'
  }

  /** Lower-kebab: no leading, trailing or doubled hyphen. */
  predicate IsKebab(s: string) {
    && s != "" && s[0] != '-' && s[|s| - 1] != '-'
    && (forall i :: 0 <= i < |s| ==> IsKebabChar(s[i]))
    && (forall i :: 1 <= i < |s| && s[i] == '-' ==> s[i - 1] != '-')
  }

  predicate IsControl(c: char) {
    c < ' ' || c == '\U{7F}'
  }

  predicate HasControl(s: string) {
    exists i :: 0 <= i < |s| && IsControl(s[i])
  }

  function ParseSeverity(s: string): Option<Severity> {
    if s == "must" then Some(Must) else if s == "should" then Some(Should) else if s == "may" then Some(May) else None
  }

  function SeverityWord(sev: Severity): string {
    match sev
    case Must => "MUST"
    case Should => "SHOULD"
    case May => "MAY"
  }

  /** Bytes of a character in UTF-8. */
  function CharBytes(c: char): nat {
    if c < '\U{80}' then 1 else if c < '\U{800}' then 2 else if c < '\U{10000}' then 3 else 4
  }

  function ByteLen(s: string): nat {
    if s == "" then 0 else CharBytes(s[0]) + ByteLen(s[1..])
  }

  /** InjectionForm: the line a brief carries. */
  function InjectionForm(s: Standard): string {
    "[std:" + s.id + "] " + SeverityWord(s.severity) + " " + s.text
  }

  /** An omitted list means every role. */
  function RolesOf(raw: RawStandard): seq<string> {
    if raw.roles == [] then [Developer(), Reviewer()] else raw.roles
  }

  predicate ValidRoles(roles: seq<string>) {
    && roles != []
    && (forall i :: 0 <= i < |roles| ==> ValidRole(roles[i]))
    && (forall i, j :: 0 <= i < j < |roles| ==> roles[i] != roles[j])
  }

  /** The standard an entry declares; its severity counts only once it is known. */
  function StandardOf(raw: RawStandard): Standard {
    var sev := ParseSeverity(raw.severity);
    Standard(raw.id, Trim(raw.text), if sev.Some? then sev.value else May, RolesOf(raw))
  }

  function KeyOf(raw: RawStandard): string {
    IdentityKey(StandardOf(raw))
  }

  /** Everything validateStandard asks of one entry, apart from its id being new. */
  predicate ValidEntry(raw: RawStandard) {
    && IsKebab(raw.id) && Trim(raw.text) != "" && !HasControl(raw.text)
    && ParseSeverity(raw.severity).Some? && ValidRoles(RolesOf(raw))
    && ByteLen(InjectionForm(StandardOf(raw))) <= MAX_FORM_BYTES
  }

  // --- identity ---

  function US(): char { '\U{1F}' }

  function RS(): char { '\U{1E}' }

  /** slices.Sort on a list of injectable roles without repetition. */
  function SortedRoles(roles: seq<string>): seq<string> {
    (if Developer() in roles then [Developer()] else []) + (if Reviewer() in roles then [Reviewer()] else [])
  }

  function JoinBy(sep: char, xs: seq<string>): string {
    if xs == [] then "" else if |xs| == 1 then xs[0] else xs[0] + [sep] + JoinBy(sep, xs[1..])
  }

  /** The key the parser refuses to see twice. */
  function IdentityKey(s: Standard): string {
    s.text + [US()] + JoinBy(RS(), SortedRoles(s.roles))
  }

  function TagOf(role: string): string {
    "tag:" + role
  }

  function Tags(roles: seq<string>): seq<string> {
    Map(TagOf, roles)
  }

  function AppliesTo(roles: seq<string>): seq<string> {
    Tags(SortedRoles(roles))
  }

  const CATEGORY := "repo-standard"

  /** lessonIdentity's content string, before the UUID: category, sorted scope, summary,
      evidence. */
  function LessonContent(appliesTo: seq<string>, summary: string, source: string): string {
    "category=" + CATEGORY + [US()] + "applies_to=" + (JoinBy(RS(), appliesTo) + [US()] + "summary=" + summary + [US()]
                                                       + "evidence=" + source)
  }

  function RecordId(s: Standard, source: string): string {
    LessonContent(AppliesTo(s.roles), s.text, source)
  }

  predicate ValidStandard(s: Standard) {
    US() !in s.text && ValidRoles(s.roles)
  }

  /** No two declared standards share a record, whatever the source. */
  ghost predicate DistinctRecords(stds: seq<Standard>) {
    forall i, j, source :: 0 <= i < j < |stds| ==> RecordId(stds[i], source) != RecordId(stds[j], source)
  }

  // --- what acceptance means ---

  predicate DistinctIds(raw: seq<RawStandard>) {
    forall i, j :: 0 <= i < j < |raw| ==> raw[i].id != raw[j].id
  }

  predicate DistinctKeys(raw: seq<RawStandard>) {
    forall i, j :: 0 <= i < j < |raw| ==> KeyOf(raw[i]) != KeyOf(raw[j])
  }

  predicate Accepts(file: RawFile) {
    && file.version == FILE_VERSION && |file.standards| <= MAX_STANDARDS
    && (forall i :: 0 <= i < |file.standards| ==> ValidEntry(file.standards[i]))
    && DistinctIds(file.standards) && DistinctKeys(file.standards)
  }

  /** What is wrong with one entry. */
  predicate EntryDefect(i: nat, raw: RawStandard, d: Defect) {
    match d
    case NoId(n) => n == i && Trim(raw.id) == ""
    case BadId(id) => id == raw.id && !IsKebab(id)
    case EmptyText(id) => id == raw.id && Trim(raw.text) == ""
    case ControlByte(id) => id == raw.id && HasControl(raw.text)
    case BadSeverity(id) => id == raw.id && ParseSeverity(raw.severity).None?
    case BadRole(id, role) => id == raw.id && !ValidRole(role) && role in RolesOf(raw)
    case RoleTwice(id, role) => id == raw.id && Repeats(RolesOf(raw), role)
    case TooLong(id) => id == raw.id && ByteLen(InjectionForm(StandardOf(raw))) > MAX_FORM_BYTES
    case _ => false
  }

  /** What is wrong with the file. */
  predicate Explains(file: RawFile, d: Defect) {
    match d
    case BadVersion => file.version != FILE_VERSION
    case TooMany => |file.standards| > MAX_STANDARDS
    case DuplicateId(id) =>
      exists i, j :: 0 <= i < j < |file.standards| && file.standards[i].id == id && file.standards[j].id == id
    case Alias(prior, id) =>
      exists i, j :: 0 <= i < j < |file.standards| && file.standards[i].id == prior && file.standards[j].id == id
                     && SameKey(file.standards[i], file.standards[j])
    case _ => exists i :: 0 <= i < |file.standards| && EntryDefect(i, file.standards[i], d)
  }

  predicate Repeats(roles: seq<string>, role: string) {
    exists a, b :: 0 <= a < b < |roles| && roles[a] == role && roles[b] == role
  }

  /** Both entries would be one record. */
  predicate SameKey(a: RawStandard, b: RawStandard) {
    ValidEntry(a) && ValidEntry(b) && KeyOf(a) == KeyOf(b)
  }

  // --- the parser ---

  predicate RoleDefect(id: string, roles: seq<string>, d: Defect) {
    match d
    case BadRole(i, role) => i == id && !ValidRole(role) && role in roles
    case RoleTwice(i, role) => i == id && Repeats(roles, role)
    case _ => false
  }

  method CheckRoles(id: string, roles: seq<string>) returns (bad: Option<Defect>)
    requires roles != []
    ensures bad.None? <==> ValidRoles(roles)
    ensures bad.Some? ==> RoleDefect(id, roles, bad.value)
  {
    hide Developer, Reviewer;
    var seen: set<string> := {};
    for k := 0 to |roles|
      invariant forall r :: r in seen <==> r in roles[..k]
      invariant forall i :: 0 <= i < k ==> ValidRole(roles[i])
      invariant forall i, j :: 0 <= i < j < k ==> roles[i] != roles[j]
    {
      if !ValidRole(roles[k]) {
        return Some(BadRole(id, roles[k]));
      }
      if roles[k] in seen {
        var a :| 0 <= a < k && roles[..k][a] == roles[k];
        assert roles[a] == roles[k];
        return Some(RoleTwice(id, roles[k]));
      }
      seen := seen + {roles[k]};
    }
    return None;
  }

  method HasControlByte(s: string) returns (found: bool)
    ensures found <==> HasControl(s)
  {
    for k := 0 to |s|
      invariant forall i :: 0 <= i < k ==> !IsControl(s[i])
    {
      if IsControl(s[k]) {
        return true;
      }
    }
    return false;
  }

  /** validateStandard. */
  method ValidateStandard(i: nat, raw: RawStandard, seen: set<string>) returns (r: Result<Standard>)
    ensures r.Ok? <==> ValidEntry(raw) && raw.id !in seen
    ensures r.Ok? ==> r.value == StandardOf(raw)
    ensures r.Err? ==> EntryDefect(i, raw, r.defect) || (r.defect == DuplicateId(raw.id) && raw.id in seen)
  {
    hide Trim, IsKebab, HasControl, ParseSeverity, ValidRole, ByteLen, InjectionForm, Repeats, Developer, Reviewer;
    if Trim(raw.id) == "" {
      KebabNotBlank(raw.id);
      return Err(NoId(i));
    }
    if !IsKebab(raw.id) {
      return Err(BadId(raw.id));
    }
    if raw.id in seen {
      return Err(DuplicateId(raw.id));
    }
    if Trim(raw.text) == "" {
      return Err(EmptyText(raw.id));
    }
    var control := HasControlByte(raw.text);
    if control {
      return Err(ControlByte(raw.id));
    }
    var sev := ParseSeverity(raw.severity);
    if sev.None? {
      return Err(BadSeverity(raw.id));
    }
    var bad := CheckRoles(raw.id, RolesOf(raw));
    if bad.Some? {
      return Err(bad.value);
    }
    var std := Standard(raw.id, Trim(raw.text), sev.value, RolesOf(raw));
    if ByteLen(InjectionForm(std)) > MAX_FORM_BYTES {
      return Err(TooLong(raw.id));
    }
    return Ok(std);
  }

  lemma KebabNotBlank(s: string)
    ensures IsKebab(s) ==> Trim(s) != ""
  {
    if IsKebab(s) {
      assert Trimmed(s) by {
        assert IsKebabChar(s[0]) && IsKebabChar(s[|s| - 1]);
      }
      TrimId(s);
    }
  }

  /** A reported defect is a reason to reject. */
  lemma DefectRejects(file: RawFile, d: Defect)
    requires Explains(file, d)
    ensures !Accepts(file)
  {
    hide ValidEntry, KeyOf, EntryDefect;
    if !d.BadVersion? && !d.TooMany? && !d.DuplicateId? && !d.Alias? {
      var i :| 0 <= i < |file.standards| && EntryDefect(i, file.standards[i], d);
      EntryRejects(i, file.standards[i], d);
    }
  }

  lemma EntryRejects(i: nat, raw: RawStandard, d: Defect)
    requires EntryDefect(i, raw, d)
    ensures !ValidEntry(raw)
  {
    hide Trim, IsKebab, HasControl, ParseSeverity, ByteLen, InjectionForm, RolesOf, ValidRole;
    KebabNotBlank(raw.id);
  }

  lemma ExplainsEntry(file: RawFile, i: nat, d: Defect)
    requires i < |file.standards| && EntryDefect(i, file.standards[i], d)
    ensures Explains(file, d)
  {
  }

  lemma ExplainsPair(file: RawFile, i: nat, j: nat)
    requires i < j < |file.standards|
    ensures file.standards[i].id == file.standards[j].id ==> Explains(file, DuplicateId(file.standards[j].id))
    ensures SameKey(file.standards[i], file.standards[j])
            ==> Explains(file, Alias(file.standards[i].id, file.standards[j].id))
  {
    hide SameKey;
  }

  /** Parse, from the decoded document on. */
  method Parse(file: RawFile) returns (r: Result<seq<Standard>>)
    ensures r.Ok? <==> Accepts(file)
    ensures r.Ok? ==> |r.value| == |file.standards| && forall i :: 0 <= i < |r.value| ==>
            r.value[i] == StandardOf(file.standards[i])
    ensures r.Err? ==> Explains(file, r.defect)
  {
    hide ValidEntry, StandardOf, IdentityKey, KeyOf, EntryDefect, Explains;
    r := ParseEntries(file);
    if r.Err? {
      DefectRejects(file, r.defect);
    }
  }

  /** The ids of the first k entries, all different. */
  ghost predicate IdsSeen(raw: seq<RawStandard>, k: nat, seen: set<string>)
    requires k <= |raw|
  {
    && (forall i :: 0 <= i < k ==> raw[i].id in seen)
    && (forall id :: id in seen ==> exists i :: 0 <= i < k && raw[i].id == id)
    && DistinctIds(raw[..k])
  }

  /** The keys of the first k entries, all different, each with the id that declared it. */
  ghost predicate KeysSeen(raw: seq<RawStandard>, k: nat, seen: map<string, string>)
    requires k <= |raw|
  {
    && (forall i :: 0 <= i < k ==> KeyOf(raw[i]) in seen)
    && (forall key :: key in seen ==> exists i :: 0 <= i < k && KeyOf(raw[i]) == key && raw[i].id == seen[key])
    && DistinctKeys(raw[..k])
  }

  lemma IdsStep(raw: seq<RawStandard>, k: nat, seen: set<string>)
    requires k < |raw| && IdsSeen(raw, k, seen) && raw[k].id !in seen
    ensures IdsSeen(raw, k + 1, seen + {raw[k].id})
  {
  }

  lemma KeysStep(raw: seq<RawStandard>, k: nat, seen: map<string, string>)
    requires k < |raw| && KeysSeen(raw, k, seen) && KeyOf(raw[k]) !in seen
    ensures KeysSeen(raw, k + 1, seen[KeyOf(raw[k]) := raw[k].id])
  {
    hide KeyOf;
  }

  lemma IdAgain(file: RawFile, k: nat, seen: set<string>)
    requires k < |file.standards| && IdsSeen(file.standards, k, seen) && file.standards[k].id in seen
    ensures Explains(file, DuplicateId(file.standards[k].id))
  {
    hide KeyOf, Explains, DistinctIds;
    var prior :| 0 <= prior < k && file.standards[prior].id == file.standards[k].id;
    ExplainsPair(file, prior, k);
  }

  lemma KeyAgain(file: RawFile, k: nat, seen: map<string, string>)
    requires k < |file.standards| && KeysSeen(file.standards, k, seen) && KeyOf(file.standards[k]) in seen
    requires forall i :: 0 <= i <= k ==> ValidEntry(file.standards[i])
    ensures Explains(file, Alias(seen[KeyOf(file.standards[k])], file.standards[k].id))
  {
    hide KeyOf, Explains, DistinctKeys, ValidEntry;
    var prior :| 0 <= prior < k && KeyOf(file.standards[prior]) == KeyOf(file.standards[k])
                 && file.standards[prior].id == seen[KeyOf(file.standards[k])];
    assert SameKey(file.standards[prior], file.standards[k]);
    ExplainsPair(file, prior, k);
  }

  method ParseEntries(file: RawFile) returns (r: Result<seq<Standard>>)
    ensures r.Ok? ==> Accepts(file)
    ensures r.Ok? ==> |r.value| == |file.standards| && forall i :: 0 <= i < |r.value| ==>
            r.value[i] == StandardOf(file.standards[i])
    ensures r.Err? ==> Explains(file, r.defect)
  {
    hide ValidEntry, StandardOf, IdentityKey, KeyOf, EntryDefect, Explains, IdsSeen, KeysSeen, Accepts;
    WholeFile(file);
    if file.version != FILE_VERSION {
      return Err(BadVersion);
    }
    if |file.standards| > MAX_STANDARDS {
      return Err(TooMany);
    }
    var raw := file.standards;
    var out: seq<Standard> := [];
    var seenIds: set<string> := {};
    var seenIdentity: map<string, string> := map[];
    NothingSeen(raw);
    for k := 0 to |raw|
      invariant |out| == k
      invariant forall i :: 0 <= i < k ==> ValidEntry(raw[i])
      invariant forall i :: 0 <= i < k ==> out[i] == StandardOf(raw[i])
      invariant IdsSeen(raw, k, seenIds) && KeysSeen(raw, k, seenIdentity)
    {
      var v := ValidateStandard(k, raw[k], seenIds);
      if v.Err? {
        if EntryDefect(k, raw[k], v.defect) {
          ExplainsEntry(file, k, v.defect);
        } else {
          IdAgain(file, k, seenIds);
        }
        return Err(v.defect);
      }
      IdsStep(raw, k, seenIds);
      seenIds := seenIds + {raw[k].id};
      var std := v.value;
      KeyAndId(raw[k]);
      var key := IdentityKey(std);
      if key in seenIdentity {
        KeyAgain(file, k, seenIdentity);
        return Err(Alias(seenIdentity[key], std.id));
      }
      KeysStep(raw, k, seenIdentity);
      seenIdentity := seenIdentity[key := std.id];
      out := out + [std];
    }
    AllSeen(file, seenIds, seenIdentity);
    return Ok(out);
  }

  lemma NothingSeen(raw: seq<RawStandard>)
    ensures IdsSeen(raw, 0, {}) && KeysSeen(raw, 0, map[])
  {
  }

  lemma AllSeen(file: RawFile, ids: set<string>, keys: map<string, string>)
    requires file.version == FILE_VERSION && |file.standards| <= MAX_STANDARDS
    requires forall i :: 0 <= i < |file.standards| ==> ValidEntry(file.standards[i])
    requires IdsSeen(file.standards, |file.standards|, ids) && KeysSeen(file.standards, |file.standards|, keys)
    ensures Accepts(file)
  {
    hide ValidEntry, KeyOf;
    assert file.standards[..|file.standards|] == file.standards;
  }

  lemma WholeFile(file: RawFile)
    ensures file.version != FILE_VERSION ==> Explains(file, BadVersion)
    ensures |file.standards| > MAX_STANDARDS ==> Explains(file, TooMany)
  {
  }

  lemma KeyAndId(raw: RawStandard)
    ensures IdentityKey(StandardOf(raw)) == KeyOf(raw) && StandardOf(raw).id == raw.id
  {
  }

  // --- accepted standards never share a record ---

  /** The scope joined one way or the other: three values, told apart by their letters. */
  function Scope(sorted: seq<string>): string {
    JoinBy(RS(), Tags(sorted))
  }

  lemma SortedShapes(roles: seq<string>)
    requires ValidRoles(roles)
    ensures SortedRoles(roles) in {[Developer()], [Reviewer()], [Developer(), Reviewer()]}
  {
    hide Developer, Reviewer;
    assert roles[0] in roles && ValidRole(roles[0]);
    assert [Developer()] + [] == [Developer()] && [] + [Reviewer()] == [Reviewer()]
           && [Developer()] + [Reviewer()] == [Developer(), Reviewer()];
  }

  /** The sorted list holds exactly the roles it was given. */
  lemma SortedIsPermutation(roles: seq<string>)
    requires ValidRoles(roles)
    ensures multiset(SortedRoles(roles)) == multiset(roles)
  {
    hide Developer, Reviewer;
    RolesDiffer();
    forall r
      ensures multiset(SortedRoles(roles))[r] == multiset(roles)[r]
    {
      OnceEach(roles, r);
      if r in roles {
        assert ValidRole(r);
      }
    }
  }

  lemma RolesDiffer()
    ensures Developer() != Reviewer()
  {
    assert Developer()[0] != Reviewer()[0];
  }

  lemma {:induction false} OnceEach(xs: seq<string>, r: string)
    requires forall i, j :: 0 <= i < j < |xs| ==> xs[i] != xs[j]
    ensures multiset(xs)[r] == if r in xs then 1 else 0
  {
    if xs != [] {
      OnceEach(xs[1..], r);
      assert xs == [xs[0]] + xs[1..];
    }
  }

  lemma JoinedRoles(sorted: seq<string>, sep: char)
    requires sorted in {[Developer()], [Reviewer()], [Developer(), Reviewer()]}
    ensures JoinBy(sep, sorted) == if sorted == [Developer()] then Developer() else if sorted == [Reviewer()]
            then Reviewer()
                                   else Developer() + [sep] + Reviewer()
  {
    hide Developer, Reviewer;
    if |sorted| == 2 {
      assert sorted[1..] == [Reviewer()];
    }
  }

  lemma JoinedScope(sorted: seq<string>)
    requires sorted in {[Developer()], [Reviewer()], [Developer(), Reviewer()]}
    ensures Scope(sorted) == if sorted == [Developer()] then TagOf(Developer()) else if sorted == [Reviewer()]
            then TagOf(Reviewer())
                             else TagOf(Developer()) + [RS()] + TagOf(Reviewer())
  {
    hide Developer, Reviewer, TagOf;
    if |sorted| == 2 {
      assert Tags(sorted)[1..] == [TagOf(Reviewer())];
    }
  }

  lemma RoleLetters(sep: char)
    requires sep == RS()
    ensures US() !in Developer() && US() !in Reviewer() && US() !in Developer() + [sep] + Reviewer()
    ensures US() !in TagOf(Developer()) && US() !in TagOf(Reviewer())
            && US() !in TagOf(Developer()) + [sep] + TagOf(Reviewer())
    ensures |Developer()| == 9 && |Reviewer()| == 8 && |TagOf(Developer())| == 13 && |TagOf(Reviewer())| == 12
  {
  }

  /** Role lists that join to the same text are the same list, with tags or without. */
  lemma JoinsAgree(a: seq<string>, b: seq<string>)
    requires ValidRoles(a) && ValidRoles(b)
    ensures JoinBy(RS(), SortedRoles(a)) == JoinBy(RS(), SortedRoles(b)) <==> SortedRoles(a) == SortedRoles(b)
    ensures Scope(SortedRoles(a)) == Scope(SortedRoles(b)) <==> SortedRoles(a) == SortedRoles(b)
    ensures US() !in JoinBy(RS(), SortedRoles(a)) && US() !in Scope(SortedRoles(a))
  {
    hide SortedRoles, ValidRoles, Developer, Reviewer, TagOf, JoinBy, Scope;
    SortedShapes(a);
    SortedShapes(b);
    JoinedRoles(SortedRoles(a), RS());
    JoinedRoles(SortedRoles(b), RS());
    JoinedScope(SortedRoles(a));
    JoinedScope(SortedRoles(b));
    RoleLetters(RS());
  }

  lemma ContentTail(a: Standard, b: Standard, source: string)
    requires RecordId(a, source) == RecordId(b, source)
    ensures Scope(SortedRoles(a.roles)) + [US()] + ("summary=" + (a.text + ([US()] + "evidence=" + source)))
         == Scope(SortedRoles(b.roles)) + [US()] + ("summary=" + (b.text + ([US()] + "evidence=" + source)))
  {
    hide Scope, JoinBy, SortedRoles;
    ContentShape(a, source);
    ContentShape(b, source);
    PrefixCancels("category=" + CATEGORY + [US()] + "applies_to=",
                  Scope(SortedRoles(a.roles)) + [US()] + ("summary=" + (a.text + ([US()] + "evidence=" + source))),
                  Scope(SortedRoles(b.roles)) + [US()] + ("summary=" + (b.text + ([US()] + "evidence=" + source))));
  }

  lemma ContentShape(s: Standard, source: string)
    ensures RecordId(s, source)
         == ("category=" + CATEGORY + [US()] + "applies_to=")
            + (Scope(SortedRoles(s.roles)) + [US()] + ("summary=" + (s.text + ([US()] + "evidence=" + source))))
  {
    hide JoinBy, SortedRoles, Tags, CATEGORY, US;
    var scope := Scope(SortedRoles(s.roles));
    AppendAssoc(scope + [US()], "summary=", s.text);
    AppendAssoc(scope + [US()], "summary=" + s.text, [US()]);
    AppendAssoc(scope + [US()], "summary=" + s.text + [US()], "evidence=");
    AppendAssoc(scope + [US()], "summary=" + s.text + [US()] + "evidence=", source);
  }

  /** Same record content if and only if same text and same set of roles. */
  lemma SameRecordIff(a: Standard, b: Standard, source: string)
    requires ValidStandard(a) && ValidStandard(b)
    ensures RecordId(a, source) == RecordId(b, source)
            <==> a.text == b.text && SortedRoles(a.roles) == SortedRoles(b.roles)
  {
    hide Scope, JoinBy, SortedRoles, ValidRoles;
    ContentShape(a, source);
    ContentShape(b, source);
    if RecordId(a, source) == RecordId(b, source) {
      JoinsAgree(a.roles, b.roles);
      JoinsAgree(b.roles, a.roles);
      ContentTail(a, b, source);
      var tail := [US()] + "evidence=" + source;
      IndexOfUnique(Scope(SortedRoles(a.roles)), "summary=" + (a.text + tail),
                    Scope(SortedRoles(b.roles)), "summary=" + (b.text + tail), US());
      PrefixCancels("summary=", a.text + tail, b.text + tail);
      SuffixCancels(a.text, b.text, tail);
    }
  }

  /** The parser's key says the same. */
  lemma SameKeyIff(a: Standard, b: Standard)
    requires ValidStandard(a) && ValidStandard(b)
    ensures IdentityKey(a) == IdentityKey(b) <==> a.text == b.text && SortedRoles(a.roles) == SortedRoles(b.roles)
  {
    hide Scope, JoinBy, SortedRoles, ValidRoles;
    JoinsAgree(a.roles, b.roles);
    if IdentityKey(a) == IdentityKey(b) {
      IndexOfUnique(a.text, JoinBy(RS(), SortedRoles(a.roles)), b.text, JoinBy(RS(), SortedRoles(b.roles)), US());
    }
  }

  lemma EntryValid(raw: RawStandard)
    requires ValidEntry(raw)
    ensures ValidStandard(StandardOf(raw))
  {
    hide IsKebab, Trim, ByteLen, InjectionForm, ParseSeverity;
    assert IsControl(US());
    TrimPart(raw.text, US());
  }

  lemma TrimPart(s: string, c: char)
    requires c !in s
    ensures c !in Trim(s)
  {
    TrimStartShape(s);
    TrimEndShape(TrimStart(s));
  }

  /** Distinct accepted standards yield distinct records, for every source; the alias
      defect is raised for exactly the pairs that would share one. */
  lemma AcceptedAreDistinct(file: RawFile, stds: seq<Standard>)
    requires Accepts(file) && |stds| == |file.standards| && forall i :: 0 <= i < |stds| ==>
             stds[i] == StandardOf(file.standards[i])
    ensures DistinctRecords(stds)
  {
    hide ValidEntry, StandardOf, RecordId, IdentityKey, SortedRoles;
    forall i, j, source | 0 <= i < j < |stds|
      ensures RecordId(stds[i], source) != RecordId(stds[j], source)
    {
      EntryValid(file.standards[i]);
      EntryValid(file.standards[j]);
      KeyAndId(file.standards[i]);
      KeyAndId(file.standards[j]);
      SameRecordIff(stds[i], stds[j], source);
      SameKeyIff(stds[i], stds[j]);
      assert KeyOf(file.standards[i]) != KeyOf(file.standards[j]);
    }
  }

  lemma AliasedShareRecord(a: RawStandard, b: RawStandard, source: string)
    requires ValidEntry(a) && ValidEntry(b)
    ensures SameKey(a, b) <==> RecordId(StandardOf(a), source) == RecordId(StandardOf(b), source)
  {
    hide ValidEntry, StandardOf, RecordId, IdentityKey, SortedRoles;
    EntryValid(a);
    EntryValid(b);
    KeyAndId(a);
    KeyAndId(b);
    SameRecordIff(StandardOf(a), StandardOf(b), source);
    SameKeyIff(StandardOf(a), StandardOf(b));
  }
}
