/** A list and its log of modification entries, and the flat-text format both are stored in:

      <name>
      <user> <user> ...
      <time> <COMMAND> <provider>:<uid> <data>
      ...

    One entry line has the shape `^([0-9]+) ([A-Z_]+) ([a-z]+:\d+) (.+)$`. */
module Lists {
  import opened Js
  import opened ListHandlers

  /** One parsed log line (`ListModificationEntry`): the time in epoch milliseconds, the
      command, the acting user, the command's payload and the handler found for the command. */
  datatype Modification = Modification(time: nat, command: string, user: string, data: string, handler: Handler)

  // ---------------------------------------------------------------------------
  // The entry pattern

  predicate IsLower(c: char) { 'a' <= c <= 'z' }

  /** The characters the regular expression `.` does not match. */
  predicate IsLineTerminator(c: char)
  {
    c == '\n' || c == '\r' || c == '\U{2028}' || c == '\U{2029}'
  }

  predicate NotLineTerminator(c: char) { !IsLineTerminator(c) }

  /** `[a-z]+:\d+` */
  ghost predicate IsUserId(u: string)
  {
    exists k :: 0 < k < |u| - 1 && u[k] == ':' && All(u[..k], IsLower) && All(u[k + 1..], IsDigit)
  }

  /** The four capture groups of the pattern. */
  datatype Groups = Groups(time: string, command: string, user: string, data: string)

  /** The line made of the groups separated by single spaces. */
  function LineOf(g: Groups): string
  {
    g.time + " " + (g.command + " " + (g.user + " " + g.data))
  }

  /** Each group is in the character class the pattern gives it. */
  ghost predicate GroupsValid(g: Groups)
  {
    && |g.time| > 0 && All(g.time, IsDigit)
    && |g.command| > 0 && All(g.command, IsUpperOrUnderscore)
    && IsUserId(g.user)
    && |g.data| > 0 && All(g.data, NotLineTerminator)
  }

  /** `line` matches the pattern with capture groups `g`. */
  ghost predicate Matches(line: string, g: Groups)
  {
    GroupsValid(g) && line == LineOf(g)
  }

  /** The groups cut out of `line` at the spaces `a`, `b` and `d`. */
  function GroupsAt(line: string, a: nat, b: nat, d: nat): Groups
    requires a < b < d < |line|
  {
    Groups(line[..a], line[a + 1..b], line[b + 1..d], line[d + 1..])
  }

  /** Every character of `s` from `lo` to `hi` satisfies `p`. */
  predicate Run(s: string, lo: int, hi: int, p: char -> bool)
  {
    0 <= lo <= hi <= |s| && forall k :: lo <= k < hi ==> p(s[k])
  }

  /** Where a string is joined around one space. */
  lemma Around(x: string, y: string)
    ensures var s := x + " " + y; |s| == |x| + 1 + |y| && s[|x|] == ' ' && s[..|x|] == x && s[|x| + 1..] == y
  {
    var s := x + " " + y;
    assert s[..|x|] == x;
    assert s[|x| + 1..] == y;
  }

  /** A slice is what lies before and after one of its spaces. */
  lemma Cut(s: string, i: nat, j: nat, k: nat)
    requires i <= j < k <= |s| && s[j] == ' '
    ensures s[i..j] + " " + s[j + 1..k] == s[i..k]
  {
    assert s[i..k] == s[i..j] + [s[j]] + s[j + 1..k];
  }

  /** Slicing a slice is slicing the string. */
  lemma SuffixSlice(s: string, i: nat, j: nat, k: nat)
    requires i <= j <= k <= |s|
    ensures s[i..k][..j - i] == s[i..j] && s[i..k][j - i..] == s[j..k]
  {
  }

  /** A run read off a slice. */
  lemma RunOf(s: string, lo: nat, hi: nat, t: string, p: char -> bool)
    requires lo <= hi <= |s| && s[lo..hi] == t && All(t, p)
    ensures Run(s, lo, hi, p)
  {
    forall k | lo <= k < hi ensures p(s[k]) {
      assert s[k] == t[k - lo];
    }
  }

  /** Where four strings joined by single spaces lie in the join. */
  lemma Join4At(t: string, c: string, u: string, x: string)
    ensures var s := t + " " + (c + " " + (u + " " + x)); var a := |t|; var b := a + 1 + |c|; var d := b + 1 + |u|;
      && |s| == d + 1 + |x| && s[a] == ' ' && s[b] == ' ' && s[d] == ' '
      && s[..a] == t && s[a + 1..b] == c && s[b + 1..d] == u && s[d + 1..] == x
  {
    var r2 := u + " " + x;
    var r1 := c + " " + r2;
    var s := t + " " + r1;
    Around(u, x);
    Around(c, r2);
    Around(t, r1);
    var a := |t|;
    var b := a + 1 + |c|;
    SuffixSlice(s, a + 1, b, |s|);
    assert s[a + 1..] == s[a + 1..|s|];
    assert s[b + 1..] == r2;
    SuffixSlice(s, b + 1, b + 1 + |u|, |s|);
    assert s[b + 1..] == s[b + 1..|s|];
  }

  /** The positions of the groups in the joined line. */
  lemma LineOfAt(g: Groups)
    ensures var line := LineOf(g); var a := |g.time|; var b := a + 1 + |g.command|; var d := b + 1 + |g.user|;
      && |line| == d + 1 + |g.data| && line[a] == ' ' && line[b] == ' ' && line[d] == ' '
      && GroupsAt(line, a, b, d) == g
  {
    Join4At(g.time, g.command, g.user, g.data);
  }

  /** A line is the join of the groups cut out of it at three of its spaces. */
  lemma JoinOfGroupsAt(line: string, a: nat, b: nat, d: nat)
    requires a < b < d < |line| && line[a] == ' ' && line[b] == ' ' && line[d] == ' '
    ensures LineOf(GroupsAt(line, a, b, d)) == line
  {
    Cut(line, b + 1, d, |line|);
    Cut(line, a + 1, b, |line|);
    Cut(line, 0, a, |line|);
    assert line[0..a] == line[..a] && line[0..|line|] == line;
    assert line[d + 1..|line|] == line[d + 1..] && line[b + 1..|line|] == line[b + 1..];
    assert line[a + 1..|line|] == line[a + 1..];
  }

  /** The groups cut out at the ends of the runs are each in their class. */
  lemma GroupsAtValid(line: string, a: nat, b: nat, c: nat, d: nat)
    requires 0 < a && a + 1 < b && b + 1 < c && c + 1 < d && d + 1 < |line| && line[c] == ':'
    requires Run(line, 0, a, IsDigit) && Run(line, a + 1, b, IsUpperOrUnderscore)
    requires Run(line, b + 1, c, IsLower) && Run(line, c + 1, d, IsDigit)
    requires Run(line, d + 1, |line|, NotLineTerminator)
    ensures GroupsValid(GroupsAt(line, a, b, d))
  {
    var u := line[b + 1..d];
    var k := c - b - 1;
    assert u[k] == ':';
    var provider := u[..k];
    var uid := u[k + 1..];
    forall j | 0 <= j < |provider| ensures IsLower(provider[j]) {
      assert provider[j] == line[b + 1 + j];
    }
    forall j | 0 <= j < |uid| ensures IsDigit(uid[j]) {
      assert uid[j] == line[c + 1 + j];
    }
    assert IsUserId(u);
  }

  /** The class of each of the four delimited fields of the pattern. */
  function FieldClass(field: nat): char -> bool
    requires field < 4
  {
    if field == 0 then IsDigit
    else if field == 1 then IsUpperOrUnderscore
    else if field == 2 then IsLower
    else IsDigit
  }

  /** The character that closes each delimited field. */
  function FieldEnd(field: nat): char
    requires field < 4
  {
    if field == 2 then ':' else ' '
  }

  /** Where field `j` starts, given the ends of the fields before it. */
  function FieldStart(ends: seq<nat>, j: nat): nat
    requires j <= |ends|
  {
    if j == 0 then 0 else ends[j - 1] + 1
  }

  /** `ends` are where the first `|ends|` fields of the pattern end in `line`: each field is a
      nonempty run of its class, closed by its end character. */
  predicate Scanned(line: string, ends: seq<nat>)
  {
    && |ends| <= 4
    && forall j :: 0 <= j < |ends| ==>
      && FieldStart(ends, j) < ends[j] < |line| && line[ends[j]] == FieldEnd(j)
      && Run(line, FieldStart(ends, j), ends[j], FieldClass(j))
  }

  /** A scan that finds one more field. */
  lemma ScannedSnoc(line: string, ends: seq<nat>, e: nat)
    requires |ends| < 4 && Scanned(line, ends)
    requires FieldStart(ends, |ends|) < e < |line| && line[e] == FieldEnd(|ends|)
    requires Run(line, FieldStart(ends, |ends|), e, FieldClass(|ends|))
    ensures Scanned(line, ends + [e])
  {
    var ends' := ends + [e];
    forall j | 0 <= j < |ends'|
      ensures FieldStart(ends', j) < ends'[j] < |line| && line[ends'[j]] == FieldEnd(j)
      ensures Run(line, FieldStart(ends', j), ends'[j], FieldClass(j))
    {
      assert FieldStart(ends', j) == FieldStart(ends, j);
      if j < |ends| {
        assert ends'[j] == ends[j];
      }
    }
  }

  /** `pattern.exec(line)`: the capture groups, or `None` for null. */
  function Exec(line: string): Option<Groups>
  {
    Scan(line, [])
  }

  /** The scan of the fields after those ending at `ends`: the longest run of the next field's
      class, which must be nonempty and closed by the field's end character; after the fourth
      field, the data up to the end of the line. */
  function Scan(line: string, ends: seq<nat>): Option<Groups>
    requires |ends| < 4 && Scanned(line, ends)
    decreases 4 - |ends|
  {
    var field := |ends|;
    var start := FieldStart(ends, field);
    var e := Span(line, start, FieldClass(field));
    if e == start || e == |line| || line[e] != FieldEnd(field) then None
    else if field < 3 then
      ScannedSnoc(line, ends, e);
      Scan(line, ends + [e])
    else if e + 1 == |line| || !Run(line, e + 1, |line|, NotLineTerminator) then None
    else Some(GroupsAt(line, ends[0], ends[1], e))
  }

  /** What `exec` returns is a match: the groups, each in its class, joined by spaces. */
  lemma ExecSound(line: string)
    ensures Exec(line).Some? ==> Matches(line, Exec(line).value)
  {
    ScanSound(line, []);
  }

  lemma {:induction false} ScanSound(line: string, ends: seq<nat>)
    requires |ends| < 4 && Scanned(line, ends)
    ensures Scan(line, ends).Some? ==> Matches(line, Scan(line, ends).value)
    decreases 4 - |ends|
  {
    if Scan(line, ends).Some? {
      var field := |ends|;
      var start := FieldStart(ends, field);
      var e := Span(line, start, FieldClass(field));
      if field < 3 {
        ScannedSnoc(line, ends, e);
        ScanSound(line, ends + [e]);
      } else {
        var a, b, c := ends[0], ends[1], ends[2];
        assert Run(line, 0, a, IsDigit) && line[a] == ' ';
        assert Run(line, a + 1, b, IsUpperOrUnderscore) && line[b] == ' ';
        assert Run(line, b + 1, c, IsLower) && line[c] == ':';
        JoinOfGroupsAt(line, a, b, e);
        GroupsAtValid(line, a, b, c, e);
      }
    }
  }

  /** What a match at the spaces `a`, `b`, `d` and the colon `c` is made of. */
  predicate MatchAt(line: string, a: nat, b: nat, c: nat, d: nat)
  {
    && 0 < a && a + 1 < b && b + 1 < c && c + 1 < d && d + 1 < |line|
    && line[a] == ' ' && line[b] == ' ' && line[c] == ':' && line[d] == ' '
    && Run(line, 0, a, IsDigit) && Run(line, a + 1, b, IsUpperOrUnderscore)
    && Run(line, b + 1, c, IsLower) && Run(line, c + 1, d, IsDigit)
    && Run(line, d + 1, |line|, NotLineTerminator)
  }

  /** The fields of a match are what the scan finds, field by field. */
  lemma ScannedOfMatch(line: string, a: nat, b: nat, c: nat, d: nat, n: nat)
    requires MatchAt(line, a, b, c, d) && n <= 4
    ensures Scanned(line, [a, b, c, d][..n])
  {
    var ends := [a, b, c, d][..n];
    forall j | 0 <= j < n
      ensures FieldStart(ends, j) < ends[j] < |line| && line[ends[j]] == FieldEnd(j)
      ensures Run(line, FieldStart(ends, j), ends[j], FieldClass(j))
    {
    }
  }

  /** `exec` stops at the ends of the runs, as no class holds the character closing it. */
  lemma ExecAt(line: string, a: nat, b: nat, c: nat, d: nat)
    requires MatchAt(line, a, b, c, d)
    ensures Exec(line) == Some(GroupsAt(line, a, b, d))
  {
    ScanAt(line, a, b, c, d, 0);
    assert [a, b, c, d][..0] == [];
  }

  lemma {:induction false} ScanAt(line: string, a: nat, b: nat, c: nat, d: nat, n: nat)
    requires MatchAt(line, a, b, c, d) && n < 4
    ensures Scanned(line, [a, b, c, d][..n])
    ensures Scan(line, [a, b, c, d][..n]) == Some(GroupsAt(line, a, b, d))
    decreases 4 - n
  {
    var all := [a, b, c, d];
    var ends := all[..n];
    ScannedOfMatch(line, a, b, c, d, n);
    ScannedOfMatch(line, a, b, c, d, n + 1);
    var e := all[n];
    var start := FieldStart(ends, n);
    assert all[..n + 1] == ends + [e];
    assert start == FieldStart(all[..n + 1], n);
    SpanIs(line, start, e, FieldClass(n));
    if n < 3 {
      ScanAt(line, a, b, c, d, n + 1);
    }
  }

  /** The groups of a line, each in its class, make runs of the line. */
  lemma RunsOfGroups(line: string, g: Groups, a: nat, b: nat, d: nat, k: nat)
    requires a == |g.time| && b == a + 1 + |g.command| && d == b + 1 + |g.user| && |line| == d + 1 + |g.data|
    requires line[a] == ' ' && line[b] == ' ' && line[d] == ' '
    requires line[..a] == g.time && line[a + 1..b] == g.command && line[b + 1..d] == g.user && line[d + 1..] == g.data
    requires |g.time| > 0 && All(g.time, IsDigit) && |g.command| > 0 && All(g.command, IsUpperOrUnderscore)
    requires |g.data| > 0 && All(g.data, NotLineTerminator)
    requires 0 < k < |g.user| - 1 && g.user[k] == ':' && All(g.user[..k], IsLower) && All(g.user[k + 1..], IsDigit)
    ensures MatchAt(line, a, b, b + 1 + k, d)
  {
    assert line[0..a] == g.time;
    RunOf(line, 0, a, g.time, IsDigit);
    RunOf(line, a + 1, b, g.command, IsUpperOrUnderscore);
    assert line[d + 1..|line|] == g.data;
    RunOf(line, d + 1, |line|, g.data, NotLineTerminator);
    RunsOfUser(line, b + 1, d, g.user, k);
  }

  /** The provider and the uid of a user id are runs of the line that holds it. */
  lemma RunsOfUser(line: string, lo: nat, hi: nat, u: string, k: nat)
    requires lo <= hi <= |line| && line[lo..hi] == u
    requires 0 < k < |u| - 1 && u[k] == ':' && All(u[..k], IsLower) && All(u[k + 1..], IsDigit)
    ensures line[lo + k] == ':' && Run(line, lo, lo + k, IsLower) && Run(line, lo + k + 1, hi, IsDigit)
  {
    SuffixSlice(line, lo, lo + k, hi);
    SuffixSlice(line, lo, lo + k + 1, hi);
    assert line[lo + k] == u[k];
    RunOf(line, lo, lo + k, u[..k], IsLower);
    RunOf(line, lo + k + 1, hi, u[k + 1..], IsDigit);
  }

  /** The groups of a match are the only ones: `exec` finds exactly them. */
  lemma ExecComplete(line: string, g: Groups)
    requires Matches(line, g)
    ensures Exec(line) == Some(g)
  {
    LineOfAt(g);
    var k :| 0 < k < |g.user| - 1 && g.user[k] == ':' && All(g.user[..k], IsLower) && All(g.user[k + 1..], IsDigit);
    ExecOfLayout(line, g, k);
  }

  /** `exec` finds the groups of a line that is laid out as they are. */
  lemma ExecOfLayout(line: string, g: Groups, k: nat)
    requires GroupsValid(g)
    requires var a := |g.time|; var b := a + 1 + |g.command|; var d := b + 1 + |g.user|;
      |line| == d + 1 + |g.data| && line[a] == ' ' && line[b] == ' ' && line[d] == ' ' && GroupsAt(line, a, b, d) == g
    requires 0 < k < |g.user| - 1 && g.user[k] == ':' && All(g.user[..k], IsLower) && All(g.user[k + 1..], IsDigit)
    ensures Exec(line) == Some(g)
  {
    var a := |g.time|;
    var b := a + 1 + |g.command|;
    var d := b + 1 + |g.user|;
    RunsOfGroups(line, g, a, b, d, k);
    ExecAt(line, a, b, b + 1 + k, d);
  }

  // ---------------------------------------------------------------------------
  // Constructing an entry

  /** A log entry that the pattern and the registry accept. */
  ghost predicate WellFormed(m: Modification)
  {
    && |m.command| > 0 && All(m.command, IsUpperOrUnderscore)
    && m.command in Handlers && m.handler == Handlers[m.command]
    && IsUserId(m.user)
    && |m.data| > 0 && All(m.data, NotLineTerminator)
  }

  /** The object branch of the constructor: the fields are taken verbatim and the command
      must name a handler of the table. */
  function FromObject(time: nat, command: string, user: string, data: string): (r: Result<Modification>)
    ensures r.Ok? <==> command in Handlers
    ensures r.Ok? ==> r.value == Modification(time, command, user, data, Handlers[command])
    ensures r.Err? ==> r.error == UnknownCommand
  {
    match Lookup(command)
    case Some(h) => Ok(Modification(time, command, user, data, h))
    case None => Err(UnknownCommand)
  }

  /** An entry built from an object as the source writes it: the handler slot holds whatever
      `handlers[data.command]` read, which may be a member inherited from `Object.prototype`. */
  datatype EntryAsWritten = EntryAsWritten(time: nat, command: string, user: string, data: string, handler: LookupResult)

  /** The object branch as written: any truthy `handlers[data.command]` is accepted, so the
      names of `Object.prototype` pass as well as the table's keys. */
  function FromObjectAsWritten(time: nat, command: string, user: string, data: string): (r: Result<EntryAsWritten>)
    ensures r.Ok? <==> command in Handlers || command in ObjectPrototypeKeys
    ensures r.Ok? ==> r.value == EntryAsWritten(time, command, user, data, LookupAsWritten(command))
    ensures r.Err? ==> r.error == UnknownCommand
  {
    var h := LookupAsWritten(command);
    if h.Missing? then Err(UnknownCommand)
    else Ok(EntryAsWritten(time, command, user, data, h))
  }

  /** An entry object with command "constructor" is accepted as written and refused by the
      intended lookup. */
  lemma InheritedCommandAccepted(time: nat, user: string, data: string)
    ensures FromObjectAsWritten(time, "constructor", user, data).Ok?
    ensures FromObject(time, "constructor", user, data) == Err(UnknownCommand)
  {
    InheritedNameAccepted();
  }

  /** For commands of upper-case letters and `_`, as every log line's command is, the two
      object branches accept the same entries, with the same handler. */
  lemma FromObjectsAgreeOnCommandNames(time: nat, command: string, user: string, data: string)
    requires All(command, IsUpperOrUnderscore)
    ensures FromObjectAsWritten(time, command, user, data).Ok? <==> FromObject(time, command, user, data).Ok?
    ensures FromObject(time, command, user, data).Ok? ==>
      FromObjectAsWritten(time, command, user, data).value.handler == OwnHandler(FromObject(time, command, user, data).value.handler)
  {
    LookupsAgreeOnCommandNames(command);
  }

  /** The string branch of the constructor: match the pattern, read the time with
      `Number.parseInt(_, 10)`, then build the entry from the groups. Group 1 is a nonempty
      run of digits, on which `parseInt` is the decimal value (`ParseLineTime`). */
  function ParseLine(line: string): (r: Result<Modification>)
    ensures r.Ok? ==> r.value.command == "CREATE"
    ensures r.Err? ==> r.error in {BadEntryLine, UnknownCommand}
  {
    match Exec(line)
    case None => Err(BadEntryLine)
    case Some(g) =>
      ExecSound(line);
      FromObject(DecimalValue(g.time), g.command, g.user, g.data)
  }

  /** The time of an entry read from a line is `Number.parseInt` of the line's first group. */
  lemma ParseLineTime(line: string)
    ensures ParseLine(line).Ok? ==> Some(ParseLine(line).value.time) == ParseInt(Exec(line).value.time)
  {
    ExecSound(line);
    if Exec(line).Some? {
      ParseIntOfDigits(Exec(line).value.time);
    }
  }

  /** An entry read from a line is well formed. */
  lemma ParseLineWellFormed(line: string)
    ensures ParseLine(line).Ok? ==> WellFormed(ParseLine(line).value)
  {
    ExecSound(line);
  }

  /** The second argument of the constructor. */
  datatype EntryArg =
    | Line(line: string)
    | Record(time: nat, command: string, user: string, data: string)
    | NullRecord
    | NotStringOrObject

  /** `new ListModificationEntry(list, data)`. */
  function NewEntry(list: Arg<List>, data: EntryArg): (r: Result<Modification>)
    ensures !list.Is? ==> r == Err(NotAList)
    ensures list.Is? && data.Line? ==> r == ParseLine(data.line)
    ensures list.Is? && data.Record? ==> (r.Ok? <==> data.command in Handlers)
    ensures list.Is? && data.Record? && r.Ok? ==>
      r.value == Modification(data.time, data.command, data.user, data.data, Handlers[data.command])
    ensures list.Is? && data.Record? && r.Err? ==> r.error == UnknownCommand
    ensures list.Is? && data.NullRecord? ==> r == Err(NullEntryData)
    ensures list.Is? && data.NotStringOrObject? ==> r == Err(BadEntryData)
  {
    if !list.Is? then Err(NotAList)
    else
      match data
      case Line(line) => ParseLine(line)
      case Record(time, command, user, d) => FromObject(time, command, user, d)
      case NullRecord => Err(NullEntryData)
      case NotStringOrObject => Err(BadEntryData)
  }

  /** `entry.toString()`: the time printed in decimal, then the other fields verbatim. */
  function Serialize(m: Modification): string
  {
    LineOf(Groups(NatToDecimal(m.time), m.command, m.user, m.data))
  }

  // ---------------------------------------------------------------------------
  // Properties of one entry line

  /** A line matching the pattern yields the decimal value of group 1 as its time and groups
      2 to 4 verbatim, or fails with "Unknown command" when group 2 names no handler. */
  lemma ParseLineOfMatch(line: string, g: Groups)
    requires Matches(line, g)
    ensures g.command in Handlers ==>
      ParseLine(line) == Ok(Modification(DecimalValue(g.time), g.command, g.user, g.data, Handlers[g.command]))
    ensures g.command !in Handlers ==> ParseLine(line) == Err(UnknownCommand)
  {
    ExecComplete(line, g);
  }

  /** A line is rejected as a bad entry line exactly when it does not match the pattern. */
  lemma ParseLineRejects(line: string)
    ensures ParseLine(line) == Err(BadEntryLine) <==> forall g :: !Matches(line, g)
  {
    ExecSound(line);
    if g :| Matches(line, g) {
      ParseLineOfMatch(line, g);
    }
  }

  /** The timestamp of the source's example line. */
  lemma ExampleTime()
    ensures All("1234", IsDigit) && Canonical("1234") && DecimalValue("1234") == 1234
  {
    assert "1234"[..3] == "123" && "123"[..2] == "12" && "12"[..1] == "1";
    assert DecimalValue("1") == 1;
    assert DecimalValue("12") == 12;
    assert DecimalValue("123") == 123;
  }

  /** The groups of the source's example line, each in its class. */
  lemma ExampleGroups()
    ensures GroupsValid(Groups("1234", "CREATE", "g:123", "fff"))
  {
    assert "g:123"[1] == ':' && "g:123"[..1] == "g" && "g:123"[2..] == "123";
  }

  /** The source's example line is its groups joined. */
  lemma ExampleLine()
    ensures LineOf(Groups("1234", "CREATE", "g:123", "fff")) == "1234 CREATE g:123 fff"
  {
  }

  /** The property test of the source: "1234 CREATE g:123 fff" parses to its fields. */
  lemma ParseLineExample()
    ensures ParseLine("1234 CREATE g:123 fff") == Ok(Modification(1234, "CREATE", "g:123", "fff", Handlers["CREATE"]))
    ensures Serialize(ParseLine("1234 CREATE g:123 fff").value) == "1234 CREATE g:123 fff"
  {
    ExampleGroups();
    ExampleLine();
    ParseLineOfMatch("1234 CREATE g:123 fff", Groups("1234", "CREATE", "g:123", "fff"));
    ExampleTime();
    PrintedOfDecimal("1234");
  }

  /** The source's failing case of a line that does not match. */
  lemma BadLineExample()
    ensures ParseLine("foo") == Err(BadEntryLine)
  {
  }

  /** The source's failing case of a command outside the table. */
  lemma UnknownCommandExample()
    ensures ParseLine("1 FOO f:1 bar") == Err(UnknownCommand)
  {
    var g := Groups("1", "FOO", "f:1", "bar");
    assert "f:1"[1] == ':' && "f:1"[..1] == "f" && "f:1"[2..] == "1";
    assert GroupsValid(g);
    assert LineOf(g) == "1 FOO f:1 bar";
    ParseLineOfMatch("1 FOO f:1 bar", g);
  }

  /** Lines that differ at most before their first space differ there. */
  lemma SameRest(x: string, y: string, r: string)
    ensures x + " " + r == y + " " + r <==> x == y
  {
    if x + " " + r == y + " " + r {
      assert |x| == |y|;
      assert x == (x + " " + r)[..|x|];
      assert y == (y + " " + r)[..|y|];
    }
  }

  /** Serialising a parsed line gives the line back exactly when its timestamp has no
      superfluous leading zero. */
  lemma LineRoundTrip(line: string)
    requires ParseLine(line).Ok?
    ensures Serialize(ParseLine(line).value) == line <==> Canonical(Exec(line).value.time)
  {
    var g := Exec(line).value;
    ExecSound(line);
    ParseLineOfMatch(line, g);
    var printed := NatToDecimal(DecimalValue(g.time));
    SameRest(printed, g.time, g.command + " " + (g.user + " " + g.data));
    if Canonical(g.time) {
      PrintedOfDecimal(g.time);
    } else {
      LeadingZeroLost(g.time);
    }
  }

  /** Parsing a serialised entry gives it back exactly when it is well formed. */
  lemma EntryRoundTrip(m: Modification)
    ensures ParseLine(Serialize(m)) == Ok(m) <==> WellFormed(m)
  {
    ParseLineWellFormed(Serialize(m));
    if WellFormed(m) {
      var g := Groups(NatToDecimal(m.time), m.command, m.user, m.data);
      assert Matches(Serialize(m), g);
      ParseLineOfMatch(Serialize(m), g);
      DecimalOfPrinted(m.time);
    }
  }

  /** A well-formed entry serialises to one line. */
  lemma UserIdOneLine(u: string)
    requires IsUserId(u)
    ensures '\n' !in u
  {
    var k :| 0 < k < |u| - 1 && u[k] == ':' && All(u[..k], IsLower) && All(u[k + 1..], IsDigit);
    assert u == u[..k] + [':'] + u[k + 1..];
    assert '\n' !in u[..k] && '\n' !in u[k + 1..];
  }

  lemma SerializedIsOneLine(m: Modification)
    requires WellFormed(m)
    ensures '\n' !in Serialize(m)
  {
    UserIdOneLine(m.user);
    var t := NatToDecimal(m.time);
    assert '\n' !in t;
    assert '\n' !in m.command;
    assert '\n' !in m.data;
  }

  // ---------------------------------------------------------------------------
  // The list text

  /** The state of a list that its text stores. */
  datatype ListValue = ListValue(name: string, users: seq<string>, entries: seq<Modification>)

  /** The entries of the given lines: each line that parses, in order; the others are dropped. */
  function ParseEntries(lines: seq<string>): (r: seq<Modification>)
    ensures |r| <= |lines|
  {
    if lines == [] then []
    else
      var last := lines[|lines| - 1];
      ParseEntries(lines[..|lines| - 1]) + (if ParseLine(last).Ok? then [ParseLine(last).value] else [])
  }

  /** Reading one more line of the text adds its entry, if it makes one. */
  lemma ParseEntriesStep(lines: seq<string>, i: nat)
    requires 2 <= i < |lines|
    ensures ParseEntries(lines[2..i + 1])
      == ParseEntries(lines[2..i]) + (if ParseLine(lines[i]).Ok? then [ParseLine(lines[i]).value] else [])
  {
    var block := lines[2..i + 1];
    assert block[..|block| - 1] == lines[2..i];
    assert block[|block| - 1] == lines[i];
  }

  /** Every entry read from the lines is well formed. */
  lemma {:induction false} ParseEntriesWellFormed(lines: seq<string>)
    ensures forall k :: 0 <= k < |ParseEntries(lines)| ==> WellFormed(ParseEntries(lines)[k])
  {
    if lines != [] {
      var init := lines[..|lines| - 1];
      ParseEntriesWellFormed(init);
      ParseLineWellFormed(lines[|lines| - 1]);
      var r := ParseEntries(lines);
      forall k | 0 <= k < |r| ensures WellFormed(r[k]) {
        if k < |ParseEntries(init)| {
          assert r[k] == ParseEntries(init)[k];
        }
      }
    }
  }

  /** The entries of consecutive blocks of lines are consecutive: order is kept. */
  lemma {:induction false} ParseEntriesAppend(a: seq<string>, b: seq<string>)
    ensures ParseEntries(a + b) == ParseEntries(a) + ParseEntries(b)
    decreases |b|
  {
    if b == [] {
      assert a + b == a;
    } else {
      var b' := b[..|b| - 1];
      assert (a + b)[..|a + b| - 1] == a + b';
      ParseEntriesAppend(a, b');
    }
  }

  /** Every line yields an entry exactly when every line parses. */
  lemma {:induction false} ParseEntriesCount(lines: seq<string>)
    ensures |ParseEntries(lines)| == |lines| <==> forall k :: 0 <= k < |lines| ==> ParseLine(lines[k]).Ok?
  {
    if lines != [] {
      var init := lines[..|lines| - 1];
      var last := lines[|lines| - 1];
      ParseEntriesCount(init);
      assert forall k :: 0 <= k < |init| ==> init[k] == lines[k];
      if forall k :: 0 <= k < |lines| ==> ParseLine(lines[k]).Ok? {
        assert forall k :: 0 <= k < |init| ==> ParseLine(init[k]).Ok?;
        assert ParseLine(last).Ok?;
      } else {
        var j :| 0 <= j < |lines| && !ParseLine(lines[j]).Ok?;
        if j < |lines| - 1 {
          assert !ParseLine(init[j]).Ok?;
        }
      }
    }
  }

  /** When every line parses, the k-th entry is the k-th line's. */
  lemma {:induction false} ParseEntriesKeepsAll(lines: seq<string>)
    requires forall k :: 0 <= k < |lines| ==> ParseLine(lines[k]).Ok?
    ensures |ParseEntries(lines)| == |lines|
    ensures forall k :: 0 <= k < |lines| ==> ParseEntries(lines)[k] == ParseLine(lines[k]).value
  {
    if lines != [] {
      var init := lines[..|lines| - 1];
      var last := lines[|lines| - 1];
      assert forall k :: 0 <= k < |init| ==> init[k] == lines[k];
      ParseEntriesKeepsAll(init);
      var r := ParseEntries(lines);
      assert r == ParseEntries(init) + [ParseLine(last).value];
      forall k | 0 <= k < |lines| ensures r[k] == ParseLine(lines[k]).value {
        if k < |init| {
          assert r[k] == ParseEntries(init)[k];
        }
      }
    }
  }

  /** The lines of a sequence of entries. */
  function SerializeAll(entries: seq<Modification>): (r: seq<string>)
    ensures |r| == |entries|
    ensures forall k :: 0 <= k < |r| ==> r[k] == Serialize(entries[k])
  {
    seq(|entries|, k requires 0 <= k < |entries| => Serialize(entries[k]))
  }

  lemma {:induction false} ParseEntriesOfSerialized(entries: seq<Modification>)
    requires forall k :: 0 <= k < |entries| ==> WellFormed(entries[k])
    ensures ParseEntries(SerializeAll(entries)) == entries
  {
    var lines := SerializeAll(entries);
    forall k | 0 <= k < |lines| ensures ParseLine(lines[k]) == Ok(entries[k]) {
      EntryRoundTrip(entries[k]);
    }
    ParseEntriesKeepsAll(lines);
  }

  lemma {:induction false} SerializedOfParsed(lines: seq<string>)
    requires forall k :: 0 <= k < |lines| ==> ParseLine(lines[k]).Ok? && Canonical(Exec(lines[k]).value.time)
    ensures SerializeAll(ParseEntries(lines)) == lines
  {
    ParseEntriesKeepsAll(lines);
    forall k | 0 <= k < |lines| ensures Serialize(ParseEntries(lines)[k]) == lines[k] {
      LineRoundTrip(lines[k]);
    }
  }

  /** `list.toString()`: the name, the users joined by single spaces, then one line per entry. */
  function SerializeList(v: ListValue): string
  {
    Join([v.name, Join(v.users, ' ')] + SerializeAll(v.entries), '\n')
  }

  /** The text constructor `new List(text)`: line 1 is the name, line 2 the users split on
      single spaces, every further line that parses an entry. A text of one line has no users
      line, and reading it fails. */
  function ParseListText(text: string): (r: Result<ListValue>)
    ensures r.Ok? <==> '\n' in text
    ensures r.Err? ==> r.error == MissingUsersLine
  {
    var lines := Split(text, '\n');
    SplitCount(text, '\n');
    if |lines| < 2 then Err(MissingUsersLine)
    else Ok(ListValue(lines[0], Split(lines[1], ' '), ParseEntries(lines[2..])))
  }

  /** A list read from a text is storable. */
  lemma ReadStorable(text: string)
    ensures ParseListText(text).Ok? ==> Storable(ParseListText(text).value)
  {
    var lines := Split(text, '\n');
    if |lines| >= 2 {
      assert '\n' !in lines[1];
      SplitKeepsOut(lines[1], ' ', '\n');
      ParseEntriesWellFormed(lines[2..]);
    }
  }

  /** What a list must satisfy for its text to read back as the same list. */
  ghost predicate Storable(v: ListValue)
  {
    && '\n' !in v.name
    && |v.users| >= 1
    && (forall k :: 0 <= k < |v.users| ==> ' ' !in v.users[k] && '\n' !in v.users[k])
    && (forall k :: 0 <= k < |v.entries| ==> WellFormed(v.entries[k]))
  }

  lemma LinesOfList(v: ListValue)
    requires '\n' !in v.name
    requires forall k :: 0 <= k < |v.users| ==> '\n' !in v.users[k]
    requires forall k :: 0 <= k < |v.entries| ==> WellFormed(v.entries[k])
    ensures Split(SerializeList(v), '\n') == [v.name, Join(v.users, ' ')] + SerializeAll(v.entries)
  {
    var usersLine := Join(v.users, ' ');
    if '\n' in usersLine {
      JoinChars(v.users, ' ', '\n');
    }
    var lines := [v.name, usersLine] + SerializeAll(v.entries);
    forall k | 0 <= k < |lines| ensures '\n' !in lines[k] {
      if k >= 2 {
        SerializedIsOneLine(v.entries[k - 2]);
      }
    }
    SplitJoin(lines, '\n');
  }

  /** Reading the text of a list gives the list back exactly when the list is storable. */
  lemma ListRoundTrip(v: ListValue)
    ensures ParseListText(SerializeList(v)) == Ok(v) <==> Storable(v)
  {
    ReadStorable(SerializeList(v));
    if Storable(v) {
      LinesOfList(v);
      SplitJoin(v.users, ' ');
      ParseEntriesOfSerialized(v.entries);
      var lines := [v.name, Join(v.users, ' ')] + SerializeAll(v.entries);
      assert lines[2..] == SerializeAll(v.entries);
    }
  }

  /** A list with no users writes an empty users line, which reads back as one empty user. */
  lemma EmptyUsersReadBack(v: ListValue)
    requires '\n' !in v.name && v.users == []
    requires forall k :: 0 <= k < |v.entries| ==> WellFormed(v.entries[k])
    ensures ParseListText(SerializeList(v)) == Ok(ListValue(v.name, [""], v.entries))
  {
    LinesOfList(v);
    ParseEntriesOfSerialized(v.entries);
    var lines := [v.name, ""] + SerializeAll(v.entries);
    assert lines[2..] == SerializeAll(v.entries);
    assert Split("", ' ') == [""];
  }

  /** The entry lines of a text that write back unchanged: they parse, with a canonical time. */
  ghost predicate CanonicalLine(line: string)
  {
    ParseLine(line).Ok? && Canonical(Exec(line).value.time)
  }

  /** Writing back a list read from a text gives the text exactly when every line after the
      users line is an entry line with a canonical time: a dropped line or a leading zero
      changes the text. */
  lemma TextRoundTrip(text: string)
    requires ParseListText(text).Ok?
    ensures SerializeList(ParseListText(text).value) == text <==>
      forall k :: 2 <= k < |Split(text, '\n')| ==> CanonicalLine(Split(text, '\n')[k])
  {
    if forall k :: 2 <= k < |Split(text, '\n')| ==> CanonicalLine(Split(text, '\n')[k]) {
      CanonicalTextWritesBack(text);
    }
    if SerializeList(ParseListText(text).value) == text {
      WrittenBackIsCanonical(text);
    }
  }

  lemma CanonicalTextWritesBack(text: string)
    requires ParseListText(text).Ok?
    requires forall k :: 2 <= k < |Split(text, '\n')| ==> CanonicalLine(Split(text, '\n')[k])
    ensures SerializeList(ParseListText(text).value) == text
  {
    var lines := Split(text, '\n');
    var rest := lines[2..];
    assert forall k :: 0 <= k < |rest| ==> rest[k] == lines[k + 2];
    SerializedOfParsed(rest);
    JoinSplit(lines[1], ' ');
    assert [lines[0], lines[1]] + rest == lines;
    JoinSplit(text, '\n');
  }

  lemma WrittenBackIsCanonical(text: string)
    requires ParseListText(text).Ok?
    requires SerializeList(ParseListText(text).value) == text
    ensures forall k :: 2 <= k < |Split(text, '\n')| ==> CanonicalLine(Split(text, '\n')[k])
  {
    var lines := Split(text, '\n');
    var v := ParseListText(text).value;
    var rest := lines[2..];
    ReadStorable(text);
    LinesOfList(v);
    assert rest == SerializeAll(v.entries);
    ParseEntriesCount(rest);
    ParseEntriesKeepsAll(rest);
    forall k | 2 <= k < |lines| ensures CanonicalLine(lines[k]) {
      assert rest[k - 2] == lines[k];
      assert Serialize(ParseLine(lines[k]).value) == lines[k];
      LineRoundTrip(lines[k]);
    }
  }

  /** The source's list fixture reads and writes back unchanged. */
  lemma ListExample()
    ensures ParseListText("Example List\ngh:1234\n1234 CREATE g:123 fff")
      == Ok(ListValue("Example List", ["gh:1234"], [Modification(1234, "CREATE", "g:123", "fff", Handlers["CREATE"])]))
    ensures SerializeList(ParseListText("Example List\ngh:1234\n1234 CREATE g:123 fff").value)
      == "Example List\ngh:1234\n1234 CREATE g:123 fff"
  {
    var m := Modification(1234, "CREATE", "g:123", "fff", Handlers["CREATE"]);
    var v := ListValue("Example List", ["gh:1234"], [m]);
    ExampleListText();
    ExampleListStorable();
    ListRoundTrip(v);
  }

  /** The text of the fixture list. */
  lemma ExampleListText()
    ensures SerializeList(ListValue("Example List", ["gh:1234"], [Modification(1234, "CREATE", "g:123", "fff", Handlers["CREATE"])]))
      == "Example List\ngh:1234\n1234 CREATE g:123 fff"
  {
    var m := Modification(1234, "CREATE", "g:123", "fff", Handlers["CREATE"]);
    ExampleEntryText();
    assert SerializeAll([m]) == ["1234 CREATE g:123 fff"];
    assert Join(["gh:1234"], ' ') == "gh:1234";
    assert ["Example List", Join(["gh:1234"], ' ')] + SerializeAll([m]) == ["Example List", "gh:1234", "1234 CREATE g:123 fff"];
    ExampleJoin();
  }

  /** The entry line of the fixture list. */
  lemma ExampleEntryText()
    ensures Serialize(Modification(1234, "CREATE", "g:123", "fff", Handlers["CREATE"])) == "1234 CREATE g:123 fff"
  {
    ExampleTime();
    PrintedOfDecimal("1234");
    ExampleLine();
  }

  /** The lines of the fixture list joined. */
  lemma ExampleJoin()
    ensures Join(["Example List", "gh:1234", "1234 CREATE g:123 fff"], '\n') == "Example List\ngh:1234\n1234 CREATE g:123 fff"
  {
    var lines := ["Example List", "gh:1234", "1234 CREATE g:123 fff"];
    assert lines[1..][1..] == ["1234 CREATE g:123 fff"];
    assert Join(lines[1..], '\n') == "gh:1234" + "\n" + "1234 CREATE g:123 fff";
  }

  /** The fixture list is storable. */
  lemma ExampleListStorable()
    ensures Storable(ListValue("Example List", ["gh:1234"], [Modification(1234, "CREATE", "g:123", "fff", Handlers["CREATE"])]))
  {
    var m := Modification(1234, "CREATE", "g:123", "fff", Handlers["CREATE"]);
    ExampleGroups();
    assert WellFormed(m);
  }

  /** A list read from a text is shared (has more than one user) exactly when its users line
      holds a space. */
  lemma SharedIffSpace(text: string)
    requires ParseListText(text).Ok?
    ensures Shared(ParseListText(text).value) <==> ' ' in Split(text, '\n')[1]
  {
    SplitCount(Split(text, '\n')[1], ' ');
  }

  /** `isShared()` on a list state: more than one user. */
  predicate Shared(v: ListValue)
  {
    |v.users| > 1
  }

  /** A list built from an object is shared exactly when the object gives more than one user
      in `users`: `[data.user]` has one. */
  lemma SharedOfRecord(data: ListRecord)
    ensures Shared(ListValue(data.name, InitialUsers(data), [])) <==> data.users.Some? && |data.users.value| > 1
  {
  }

  // ---------------------------------------------------------------------------
  // The List object

  /** The fields the object constructor `new List(data, uuid)` reads. */
  datatype ListRecord = ListRecord(name: string, users: Option<seq<string>>, user: Option<string>)

  /** `data.users || (data.user ? [data.user] : [])`: an array is always truthy, the empty
      string is not. */
  function InitialUsers(data: ListRecord): (r: seq<string>)
    ensures data.users.Some? ==> r == data.users.value
    ensures data.users.None? && data.user.Some? && data.user.value != "" ==> r == [data.user.value]
    ensures data.users.None? && (data.user.None? || data.user.value == "") ==> r == []
  {
    match data.users
    case Some(us) => us
    case None =>
      match data.user
      case Some(u) => if u != "" then [u] else []
      case None => []
  }

  /** `uuid || genUuid()`: the generated uuid is a parameter, and an empty uuid is replaced. */
  function ChosenUuid(uuid: Option<string>, generated: string): (r: string)
    ensures uuid.Some? && uuid.value != "" ==> r == uuid.value
    ensures uuid.None? || uuid.value == "" ==> r == generated
  {
    match uuid
    case Some(u) => if u != "" then u else generated
    case None => generated
  }

  class List {
    const name: string
    const uuid: string
    const users: seq<string>
    var entries: seq<Modification>

    /** `new List(data, uuid)` with an object. */
    constructor (data: ListRecord, uuid: Option<string>, generated: string)
      ensures name == data.name && users == InitialUsers(data) && entries == []
      ensures this.uuid == ChosenUuid(uuid, generated)
    {
      name := data.name;
      this.uuid := ChosenUuid(uuid, generated);
      users := InitialUsers(data);
      entries := [];
    }

    function Value(): ListValue
      reads this
    {
      ListValue(name, users, entries)
    }

    /** `new List(text, uuid)`: reads the name and users, then adds each line that makes an
      entry; a line that throws is skipped. */
    static method FromText(text: string, uuid: Option<string>, generated: string) returns (r: Result<List>)
      ensures r.Err? <==> ParseListText(text).Err?
      ensures r.Err? ==> ParseListText(text) == Err(r.error)
      ensures r.Ok? ==> fresh(r.value) && ParseListText(text) == Ok(r.value.Value())
      ensures r.Ok? ==> r.value.uuid == ChosenUuid(uuid, generated)
    {
      var lines := Split(text, '\n');
      if |lines| < 2 {
        return Err(MissingUsersLine);
      }
      var list := new List(ListRecord(lines[0], Some(Split(lines[1], ' ')), None), uuid, generated);
      list.AddLines(lines);
      return Ok(list);
    }

    /** The loop of the text constructor: every line from the third on that makes an entry is
      added, in order; a line that throws is skipped. */
    method AddLines(lines: seq<string>)
      requires 2 <= |lines| && entries == []
      modifies this
      ensures entries == ParseEntries(lines[2..])
    {
      var i := 2;
      while i < |lines|
        invariant 2 <= i <= |lines|
        invariant entries == ParseEntries(lines[2..i])
      {
        var entry := NewEntry(Is(this), Line(lines[i]));
        if entry.Ok? {
          var _ := AddEntry(Is(entry.value));
        }
        ParseEntriesStep(lines, i);
        i := i + 1;
      }
      assert lines[2..i] == lines[2..];
    }

    /** `list.addEntry(entry)`: appends one entry; anything else is refused. */
    method AddEntry(entry: Arg<Modification>) returns (o: Outcome)
      modifies this
      ensures entry.Is? ==> o == Pass && entries == old(entries) + [entry.value]
      ensures !entry.Is? ==> o == Fail(NotAnEntry) && entries == old(entries)
    {
      if !entry.Is? {
        return Fail(NotAnEntry);
      }
      entries := entries + [entry.value];
      return Pass;
    }

    /** `list.isShared()` */
    predicate IsShared()
      reads this
      ensures IsShared() <==> Shared(Value())
    {
      |users| > 1
    }

    /** `list.toString()`, building the text line by line. */
    method ToString() returns (str: string)
      ensures str == SerializeList(Value())
    {
      var head := [name, Join(users, ' ')];
      str := name + "\n" + Join(users, ' ');
      assert Join(head, '\n') == str;
      var i := 0;
      while i < |entries|
        invariant 0 <= i <= |entries|
        invariant str == Join(head + SerializeAll(entries[..i]), '\n')
      {
        var done := head + SerializeAll(entries[..i]);
        var line := Serialize(entries[i]);
        assert head + SerializeAll(entries[..i + 1]) == done + [line];
        JoinSnoc(done, line, '\n');
        str := str + "\n" + line;
        i := i + 1;
      }
      assert entries[..i] == entries;
    }
  }

  /** What `addEntry` keeps: a list that is storable stays storable when a well-formed
      entry is added; the earlier entries are unchanged and the new one is last. */
  lemma AddKeepsStorable(v: ListValue, m: Modification)
    requires Storable(v) && WellFormed(m)
    ensures Storable(ListValue(v.name, v.users, v.entries + [m]))
    ensures ParseListText(SerializeList(ListValue(v.name, v.users, v.entries + [m])))
      == Ok(ListValue(v.name, v.users, v.entries + [m]))
  {
    var w := ListValue(v.name, v.users, v.entries + [m]);
    assert forall k :: 0 <= k < |v.entries| ==> w.entries[k] == v.entries[k];
    ListRoundTrip(w);
  }
}
