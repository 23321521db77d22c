/** Published versions and the channel each is declared on
    (`src-tauri/src/release_channel.rs`). */
module ReleaseChannels {
  import opened Durability
  import opened Orders

  // -------------------------------------------------------------------- text

  /** The pieces of `text` between separators, as `str::split` gives them. */
  function Split(text: string, sep: char): (parts: seq<string>)
    ensures parts != []
    ensures forall p :: p in parts ==> sep !in p
    decreases |text|
  {
    if text == [] then [[]]
    else
      var rest := Split(text[1..], sep);
      if text[0] == sep then [[]] + rest else [[text[0]] + rest[0]] + rest[1..]
  }

  function Join(parts: seq<string>, sep: char): string
    requires parts != []
  {
    if |parts| == 1 then parts[0] else parts[0] + [sep] + Join(parts[1..], sep)
  }

  lemma {:induction false} JoinSplit(text: string, sep: char)
    ensures Join(Split(text, sep), sep) == text
    decreases |text|
  {
    if text != [] {
      JoinSplit(text[1..], sep);
      var rest, parts := Split(text[1..], sep), Split(text, sep);
      if text[0] == sep {
        assert parts[1..] == rest;
      } else {
        assert parts[1..] == rest[1..];
      }
      assert text == [text[0]] + text[1..];
    }
  }

  lemma {:induction false} SplitPart(part: string, sep: char)
    requires sep !in part
    ensures Split(part, sep) == [part]
    decreases |part|
  {
    if part != [] {
      SplitPart(part[1..], sep);
      assert part == [part[0]] + part[1..];
    }
  }

  lemma {:induction false} SplitAt(part: string, sep: char, rest: string)
    requires sep !in part
    ensures Split(part + [sep] + rest, sep) == [part] + Split(rest, sep)
    decreases |part|
  {
    var text := part + [sep] + rest;
    if part == [] {
      assert text[1..] == rest;
    } else {
      assert text[1..] == part[1..] + [sep] + rest;
      SplitAt(part[1..], sep, rest);
      assert part == [part[0]] + part[1..];
      assert ([part[1..]] + Split(rest, sep))[1..] == Split(rest, sep);
    }
  }

  lemma {:induction false} SplitJoin(parts: seq<string>, sep: char)
    requires parts != [] && forall p :: p in parts ==> sep !in p
    ensures Split(Join(parts, sep), sep) == parts
  {
    if |parts| == 1 {
      SplitPart(parts[0], sep);
    } else {
      SplitJoin(parts[1..], sep);
      SplitAt(parts[0], sep, Join(parts[1..], sep));
    }
  }

  // ----------------------------------------------------------------- numbers

  const U64_MAX := 0xFFFF_FFFF_FFFF_FFFF

  predicate IsDigit(c: char) {
    '0' <= c <= '9'
  }

  predicate AllDigits(s: string) {
    forall c :: c in s ==> IsDigit(c)
  }

  function Decimal(n: nat): string {
    if n < 10 then [('0' as int + n) as char] else Decimal(n / 10) + [('0' as int + n % 10) as char]
  }

  function Value(s: string): nat
    requires AllDigits(s)
  {
    if s == [] then 0
    else
      var last := s[|s| - 1];
      assert last in s;
      Value(s[..|s| - 1]) * 10 + (last as int - '0' as int)
  }

  /** No leading zero, except a lone `0`. */
  predicate Canonical(s: string) {
    s != [] && AllDigits(s) && (s == "0" || s[0] != '0')
  }

  lemma {:induction false} DecimalIsCanonical(n: nat)
    ensures Canonical(Decimal(n)) && Value(Decimal(n)) == n
    ensures n > 0 ==> Decimal(n)[0] != '0'
    ensures '.' !in Decimal(n)
  {
    if n < 10 {
      assert Decimal(n)[..0] == [];
    } else {
      DecimalIsCanonical(n / 10);
      var s := Decimal(n);
      assert s[..|s| - 1] == Decimal(n / 10);
    }
  }

  lemma {:induction false} DecimalOfValue(s: string)
    requires Canonical(s)
    ensures Decimal(Value(s)) == s
    ensures Value(s) == 0 <==> s == "0"
    decreases |s|
  {
    var last := s[|s| - 1];
    assert last in s;
    if |s| == 1 {
      assert s[..0] == [];
      assert s == [last];
    } else {
      var head := s[..|s| - 1];
      assert head[0] == s[0] && s[0] != '0';
      assert forall c :: c in head ==> c in s;
      DecimalOfValue(head);
      assert Value(s) == Value(head) * 10 + (last as int - '0' as int);
      assert Value(s) / 10 == Value(head);
      assert s == head + [last];
    }
  }

  /** `plain_component`: canonical decimal digits that fit 64 bits. */
  function PlainComponent(part: string): Option<nat> {
    if Canonical(part) && Value(part) <= U64_MAX then Some(Value(part)) else None
  }

  // ---------------------------------------------------------------- versions

  datatype Version = Version(major: nat, minor: nat, patch: nat)

  predicate Representable(v: Version) {
    v.major <= U64_MAX && v.minor <= U64_MAX && v.patch <= U64_MAX
  }

  function ParseVersion(text: string): Option<Version> {
    var parts := Split(text, '.');
    if |parts| != 3 then None
    else
      match (PlainComponent(parts[0]), PlainComponent(parts[1]), PlainComponent(parts[2]))
      case (Some(major), Some(minor), Some(patch)) => Some(Version(major, minor, patch))
      case _ => None
  }

  function Print(v: Version): string {
    Decimal(v.major) + "." + Decimal(v.minor) + "." + Decimal(v.patch)
  }

  lemma SplitsInThree(a: string, b: string, c: string)
    requires '.' !in a && '.' !in b && '.' !in c
    ensures Split(a + "." + b + "." + c, '.') == [a, b, c]
  {
    var tail := b + ['.'] + c;
    assert a + "." + b + "." + c == a + ['.'] + tail;
    SplitAt(a, '.', tail);
    SplitAt(b, '.', c);
    SplitPart(c, '.');
  }

  lemma JoinsThree(a: string, b: string, c: string)
    ensures Join([a, b, c], '.') == a + "." + b + "." + c
  {
    assert [a, b, c][1..] == [b, c] && [b, c][1..] == [c];
    assert Join([b, c], '.') == b + ['.'] + Join([c], '.');
    assert a + ['.'] + (b + ['.'] + c) == a + "." + b + "." + c;
  }

  /** Every representable version reads back as itself. */
  lemma PrintParses(v: Version)
    ensures ParseVersion(Print(v)) == if Representable(v) then Some(v) else None
    ensures Representable(v) <==>
      v.major <= 18_446_744_073_709_551_615 && v.minor <= 18_446_744_073_709_551_615 && v.patch <= 18_446_744_073_709_551_615
  {
    DecimalIsCanonical(v.major);
    DecimalIsCanonical(v.minor);
    DecimalIsCanonical(v.patch);
    SplitsInThree(Decimal(v.major), Decimal(v.minor), Decimal(v.patch));
  }

  /** Every accepted text is exactly how its version is printed. */
  lemma ParsePrints(text: string)
    requires ParseVersion(text).Some?
    ensures Print(ParseVersion(text).value) == text && Representable(ParseVersion(text).value)
  {
    var parts := Split(text, '.');
    JoinSplit(text, '.');
    assert parts == [parts[0], parts[1], parts[2]];
    JoinsThree(parts[0], parts[1], parts[2]);
    DecimalOfValue(parts[0]);
    DecimalOfValue(parts[1]);
    DecimalOfValue(parts[2]);
  }

  predicate Before(a: Version, b: Version) {
    a.major < b.major || (a.major == b.major && (a.minor < b.minor || (a.minor == b.minor && a.patch < b.patch)))
  }

  // ------------------------------------------------------------ declarations

  datatype Channel = Stable | Prerelease

  function ChannelName(c: Channel): string {
    if c.Stable? then "stable" else "prerelease"
  }

  function ParseChannel(text: string): Option<Channel> {
    if text == "stable" then Some(Stable) else if text == "prerelease" then Some(Prerelease) else None
  }

  datatype Declaration = Declaration(version: Version, channel: Channel)

  /** The white space of `char::is_whitespace`. */
  predicate IsSpace(c: char) {
    || '\t' <= c <= '\r' || c == ' ' || c == '\U{0085}' || c == '\U{00A0}' || c == '\U{1680}'
    || '\U{2000}' <= c <= '\U{200A}' || c == '\U{2028}' || c == '\U{2029}' || c == '\U{202F}'
    || c == '\U{205F}' || c == '\U{3000}'
  }

  /** `split_whitespace`: the runs of other characters. Trimming first changes
      none of them. */
  function Fields(line: string, pending: string): (fields: seq<string>)
    ensures forall f :: f in fields ==> f != []
    decreases |line|
  {
    if line == [] then if pending == [] then [] else [pending]
    else if IsSpace(line[0]) then (if pending == [] then [] else [pending]) + Fields(line[1..], [])
    else Fields(line[1..], pending + [line[0]])
  }

  /** A blank line or a comment. */
  predicate Skipped(line: string) {
    var fields := Fields(line, []);
    fields == [] || (assert fields[0] in fields; fields[0][0] == '#')
  }

  function ReadLine(line: string): Option<Declaration> {
    var fields := Fields(line, []);
    if |fields| != 2 then None
    else match (ParseVersion(fields[0]), ParseChannel(fields[1]))
      case (Some(version), Some(channel)) => Some(Declaration(version, channel))
      case _ => None
  }

  function Significant(lines: seq<string>): seq<string> {
    if lines == [] then []
    else (if Skipped(lines[0]) then [] else [lines[0]]) + Significant(lines[1..])
  }

  predicate Increasing(ds: seq<Declaration>) {
    forall i, j :: 0 <= i < j < |ds| ==> Before(ds[i].version, ds[j].version)
  }

  /** What an accepted file says: each line that is not blank or a comment
      declares one version, each later than the one before. */
  predicate Declares(text: string, ds: seq<Declaration>) {
    var lines := Significant(Split(text, '\n'));
    |lines| == |ds| && Increasing(ds) && forall i :: 0 <= i < |ds| ==> ReadLine(lines[i]) == Some(ds[i])
  }

  /** What has been read agrees with the first lines. */
  ghost predicate ReadSoFar(lines: seq<string>, ds: seq<Declaration>) {
    |ds| <= |lines| && Increasing(ds) && forall i :: 0 <= i < |ds| ==> ReadLine(lines[i]) == Some(ds[i])
  }

  /** Line `n` declares nothing, or nothing later than the line before it. */
  predicate BadAt(lines: seq<string>, n: nat) {
    && n < |lines|
    && (ReadLine(lines[n]).None?
        || (n > 0 && ReadLine(lines[n - 1]).Some?
            && !Before(ReadLine(lines[n - 1]).value.version, ReadLine(lines[n]).value.version)))
  }

  lemma BadDeclaresNothing(text: string, n: nat)
    requires BadAt(Significant(Split(text, '\n')), n)
    ensures forall ds :: !Declares(text, ds)
  {
    var lines := Significant(Split(text, '\n'));
    forall ds ensures !Declares(text, ds) {
      if |ds| == |lines| && forall i :: 0 <= i < |ds| ==> ReadLine(lines[i]) == Some(ds[i]) {
        assert ReadLine(lines[n]) == Some(ds[n]);
        assert n > 0 && ReadLine(lines[n - 1]) == Some(ds[n - 1]);
        assert !Increasing(ds);
      }
    }
  }

  lemma ReadNext(lines: seq<string>, ds: seq<Declaration>, d: Declaration)
    requires ReadSoFar(lines, ds) && |ds| < |lines| && ReadLine(lines[|ds|]) == Some(d)
    ensures if ds == [] || Before(ds[|ds| - 1].version, d.version) then ReadSoFar(lines, ds + [d]) else BadAt(lines, |ds|)
  {
    if ds == [] || Before(ds[|ds| - 1].version, d.version) {
      IncreasingAppend(ds, d);
    }
  }

  /** The loop over the lines, which stops at the first bad one. */
  method ReadLines(lines: seq<string>) returns (declarations: seq<Declaration>, bad: Option<string>)
    ensures bad.None? ==> ReadSoFar(Significant(lines), declarations) && |declarations| == |Significant(lines)|
    ensures bad.Some? ==> BadAt(Significant(lines), |declarations|)
  {
    ghost var significant := Significant(lines);
    declarations := [];
    for i := 0 to |lines|
      invariant |declarations| == |Significant(lines[..i])| && ReadSoFar(significant, declarations)
    {
      SignificantNext(lines, i);
      if !Skipped(lines[i]) {
        var n := |declarations|;
        var read := ReadLine(lines[i]);
        if read.None? {
          return declarations, Some("not a declaration");
        }
        ReadNext(significant, declarations, read.value);
        if n > 0 && !Before(declarations[n - 1].version, read.value.version) {
          return declarations, Some("each line must be a later version");
        }
        declarations := declarations + [read.value];
      }
    }
    assert lines[..|lines|] == lines;
    bad := None;
  }

  /** `parse_declarations`. It succeeds exactly on the texts that declare
      something, and answers what they declare. */
  method ParseDeclarations(text: string) returns (answer: Result<seq<Declaration>, string>)
    ensures answer.Ok? <==> exists ds :: Declares(text, ds)
    ensures answer.Ok? ==> Declares(text, answer.value)
  {
    var declarations, bad := ReadLines(Split(text, '\n'));
    if bad.Some? {
      BadDeclaresNothing(text, |declarations|);
      return Err(bad.value);
    }
    assert Declares(text, declarations);
    answer := Ok(declarations);
  }

  lemma {:induction false} SignificantConcat(xs: seq<string>, ys: seq<string>)
    ensures Significant(xs + ys) == Significant(xs) + Significant(ys)
  {
    if xs == [] {
      assert xs + ys == ys;
    } else {
      assert (xs + ys)[1..] == xs[1..] + ys;
      SignificantConcat(xs[1..], ys);
    }
  }

  /** Line `i`, if significant, is the next significant line. */
  lemma SignificantNext(lines: seq<string>, i: nat)
    requires i < |lines|
    ensures var n := |Significant(lines[..i])|;
      if Skipped(lines[i]) then |Significant(lines[..i + 1])| == n
      else |Significant(lines[..i + 1])| == n + 1 && n < |Significant(lines)| && Significant(lines)[n] == lines[i]
  {
    assert lines[..i + 1] == lines[..i] + [lines[i]];
    assert lines == lines[..i + 1] + lines[i + 1..];
    SignificantConcat(lines[..i], [lines[i]]);
    SignificantConcat(lines[..i + 1], lines[i + 1..]);
    assert Significant([lines[i]]) == if Skipped(lines[i]) then [] else [lines[i]];
  }

  lemma IncreasingAppend(ds: seq<Declaration>, d: Declaration)
    requires Increasing(ds) && (ds == [] || Before(ds[|ds| - 1].version, d.version))
    ensures Increasing(ds + [d])
  {
  }

  /** `channel_for`. */
  function ChannelFor(ds: seq<Declaration>, version: Version): Option<Channel> {
    if ds == [] then None
    else if ds[0].version == version then Some(ds[0].channel)
    else ChannelFor(ds[1..], version)
  }

  /** In an accepted file a version has a channel exactly when one line declares
      it, and no other line says anything else about it. */
  lemma {:induction false} ChannelIsTheDeclaredOne(ds: seq<Declaration>, version: Version, channel: Channel)
    requires Increasing(ds)
    ensures ChannelFor(ds, version) == Some(channel) <==> Declaration(version, channel) in ds
  {
    if ds != [] {
      assert Increasing(ds[1..]);
      ChannelIsTheDeclaredOne(ds[1..], version, channel);
      if Declaration(version, channel) in ds[1..] {
        var j :| 0 <= j < |ds[1..]| && ds[1..][j] == Declaration(version, channel);
        assert Before(ds[0].version, ds[j + 1].version);
      }
      assert ds == [ds[0]] + ds[1..];
    }
  }

  // ------------------------------------------------------------- round trip

  function PrintLine(d: Declaration): string {
    Print(d.version) + " " + ChannelName(d.channel)
  }

  function PrintAll(ds: seq<Declaration>): string {
    if ds == [] then "" else PrintLine(ds[0]) + ['\n'] + PrintAll(ds[1..])
  }

  /** Printed text of digits and points holds no white space. */
  lemma DecimalHasNoSpace(n: nat)
    ensures forall c :: c in Decimal(n) ==> !IsSpace(c) && c != '#' && c != '\n'
  {
    DecimalIsCanonical(n);
  }

  lemma {:induction false} FieldsOfWord(word: string, pending: string)
    requires forall c :: c in word ==> !IsSpace(c)
    ensures Fields(word, pending) == if pending + word == [] then [] else [pending + word]
    decreases |word|
  {
    if word != [] {
      FieldsOfWord(word[1..], pending + [word[0]]);
      assert pending + [word[0]] + word[1..] == pending + word;
    } else {
      assert pending + word == pending;
    }
  }

  lemma {:induction false} FieldsAfterWord(word: string, pending: string, rest: string)
    requires forall c :: c in word ==> !IsSpace(c)
    requires pending + word != []
    ensures Fields(word + [' '] + rest, pending) == [pending + word] + Fields(rest, [])
    decreases |word|
  {
    var line := word + [' '] + rest;
    if word == [] {
      assert line[1..] == rest && pending + word == pending;
    } else {
      assert line[1..] == word[1..] + [' '] + rest;
      FieldsAfterWord(word[1..], pending + [word[0]], rest);
      assert pending + [word[0]] + word[1..] == pending + word;
    }
  }

  lemma PrintHasNoSpace(v: Version)
    ensures Print(v) != [] && Print(v)[0] != '#'
    ensures forall c :: c in Print(v) ==> !IsSpace(c) && c != '\n'
  {
    DecimalHasNoSpace(v.major);
    DecimalHasNoSpace(v.minor);
    DecimalHasNoSpace(v.patch);
    DecimalIsCanonical(v.major);
    assert Print(v)[0] == Decimal(v.major)[0];
    assert Decimal(v.major)[0] in Decimal(v.major);
  }

  lemma ChannelHasNoSpace(c: Channel)
    ensures forall x :: x in ChannelName(c) ==> !IsSpace(x) && x != '\n'
    ensures ChannelName(c) != [] && ParseChannel(ChannelName(c)) == Some(c)
  {
  }

  lemma FieldsOfPrinted(d: Declaration)
    ensures Fields(PrintLine(d), []) == [Print(d.version), ChannelName(d.channel)]
  {
    var v, c := Print(d.version), ChannelName(d.channel);
    PrintHasNoSpace(d.version);
    ChannelHasNoSpace(d.channel);
    assert PrintLine(d) == v + [' '] + c;
    FieldsAfterWord(v, [], c);
    FieldsOfWord(c, []);
    assert [] + v == v && [] + c == c;
  }

  lemma PrintedLineReads(d: Declaration)
    requires Representable(d.version)
    ensures ReadLine(PrintLine(d)) == Some(d) && !Skipped(PrintLine(d)) && '\n' !in PrintLine(d)
  {
    FieldsOfPrinted(d);
    PrintHasNoSpace(d.version);
    ChannelHasNoSpace(d.channel);
    PrintParses(d.version);
  }

  lemma {:induction false} PrintedLinesSplit(ds: seq<Declaration>)
    requires forall d :: d in ds ==> Representable(d.version)
    ensures var lines := Significant(Split(PrintAll(ds), '\n'));
      |lines| == |ds| && forall i :: 0 <= i < |ds| ==> lines[i] == PrintLine(ds[i])
  {
    if ds != [] {
      assert ds[0] in ds;
      PrintedLineReads(ds[0]);
      SplitAt(PrintLine(ds[0]), '\n', PrintAll(ds[1..]));
      PrintedLinesSplit(ds[1..]);
      var lines := Split(PrintAll(ds), '\n');
      assert lines[0] == PrintLine(ds[0]) && lines[1..] == Split(PrintAll(ds[1..]), '\n');
    }
  }

  lemma DeclaresOneThing(text: string, xs: seq<Declaration>, ys: seq<Declaration>)
    requires Declares(text, xs) && Declares(text, ys)
    ensures xs == ys
  {
    var lines := Significant(Split(text, '\n'));
    forall i | 0 <= i < |xs| ensures xs[i] == ys[i] {
      assert ReadLine(lines[i]) == Some(xs[i]) && ReadLine(lines[i]) == Some(ys[i]);
    }
  }

  /** Printed, the declarations of any accepted text read back as themselves, and
      as nothing else. */
  lemma PrintedReadsBack(text: string, ds: seq<Declaration>, again: seq<Declaration>)
    requires Declares(text, ds)
    ensures Declares(PrintAll(ds), again) <==> again == ds
  {
    var lines := Significant(Split(text, '\n'));
    forall d | d in ds ensures Representable(d.version) {
      var i :| 0 <= i < |ds| && ds[i] == d;
      assert ReadLine(lines[i]) == Some(d);
      ParsePrints(Fields(lines[i], [])[0]);
    }
    PrintedLinesSplit(ds);
    forall i | 0 <= i < |ds| ensures ReadLine(PrintLine(ds[i])) == Some(ds[i]) {
      assert ds[i] in ds;
      PrintedLineReads(ds[i]);
    }
    assert Declares(PrintAll(ds), ds);
    if Declares(PrintAll(ds), again) {
      DeclaresOneThing(PrintAll(ds), ds, again);
    }
  }

  // ------------------------------------------------------- what a line may be

  predicate Blank(s: string) {
    forall i :: 0 <= i < |s| ==> IsSpace(s[i])
  }

  predicate Spaceless(s: string) {
    forall i :: 0 <= i < |s| ==> !IsSpace(s[i])
  }

  /** `word` is the first field once `pending` is put before it; `before` and `after`
      are the rest of the line. */
  predicate Cuts(line: string, pending: string, before: string, word: string, after: string) {
    && line == before + word + after && Blank(before) && Spaceless(word) && (pending != [] ==> before == [])
    && (after == [] || IsSpace(after[0]))
    && Fields(line, pending) == [pending + word] + Fields(after, [])
  }

  lemma CutsLater(line: string, before: string, word: string, after: string)
    requires line != [] && IsSpace(line[0]) && Cuts(line[1..], [], before, word, after)
    ensures Cuts(line, [], [line[0]] + before, word, after)
  {
    assert line == [line[0]] + line[1..];
    assert [line[0]] + (before + word + after) == [line[0]] + before + word + after;
  }

  lemma CutsOn(line: string, pending: string, word: string, after: string)
    requires line != [] && !IsSpace(line[0]) && Cuts(line[1..], pending + [line[0]], [], word, after)
    ensures Cuts(line, pending, [], [line[0]] + word, after)
  {
    assert line == [line[0]] + line[1..];
    assert [line[0]] + ([] + word + after) == [] + ([line[0]] + word) + after;
    assert pending + [line[0]] + word == pending + ([line[0]] + word);
  }

  /** The first field of a line, and what is around it. */
  lemma {:induction false} FirstField(line: string, pending: string) returns (before: string, word: string, after: string)
    requires Fields(line, pending) != []
    ensures Cuts(line, pending, before, word, after)
    decreases |line|
  {
    if line == [] || (IsSpace(line[0]) && pending != []) {
      before, word, after := [], [], line;
      assert pending + word == pending && before + word + after == line;
    } else if IsSpace(line[0]) {
      before, word, after := FirstField(line[1..], []);
      CutsLater(line, before, word, after);
      before := [line[0]] + before;
    } else {
      before, word, after := FirstField(line[1..], pending + [line[0]]);
      CutsOn(line, pending, word, after);
      word := [line[0]] + word;
    }
  }

  lemma {:induction false} FieldsOfBlank(line: string)
    ensures Fields(line, []) == [] <==> Blank(line)
    decreases |line|
  {
    if line != [] {
      if IsSpace(line[0]) {
        FieldsOfBlank(line[1..]);
        assert forall i :: 1 <= i < |line| ==> line[i] == line[1..][i - 1];
      } else {
        FieldsPending(line[1..], [line[0]]);
        assert [] + [line[0]] == [line[0]];
      }
    }
  }

  lemma {:induction false} FieldsPending(line: string, pending: string)
    requires pending != []
    ensures Fields(line, pending) != []
    decreases |line|
  {
    if line != [] && !IsSpace(line[0]) {
      FieldsPending(line[1..], pending + [line[0]]);
    }
  }

  lemma {:induction false} FieldsAfterBlank(before: string, rest: string)
    requires Blank(before)
    ensures Fields(before + rest, []) == Fields(rest, [])
    decreases |before|
  {
    if before == [] {
      assert before + rest == rest;
    } else {
      assert (before + rest)[0] == before[0] && (before + rest)[1..] == before[1..] + rest;
      FieldsAfterBlank(before[1..], rest);
    }
  }

  lemma {:induction false} FieldsOfWordThen(word: string, pending: string, rest: string)
    requires Spaceless(word) && pending + word != [] && (rest == [] || IsSpace(rest[0]))
    ensures Fields(word + rest, pending) == [pending + word] + Fields(rest, [])
    decreases |word|
  {
    if word == [] {
      assert word + rest == rest && pending + word == pending;
    } else {
      assert (word + rest)[0] == word[0] && (word + rest)[1..] == word[1..] + rest;
      FieldsOfWordThen(word[1..], pending + [word[0]], rest);
      assert pending + [word[0]] + word[1..] == pending + word;
    }
  }

  /** The line, but for the space around it, is a comment. */
  ghost predicate IsComment(line: string) {
    exists before, rest :: line == before + ['#'] + rest && Blank(before)
  }

  lemma BlankBegins(line: string, before: string)
    requires before <= line && Blank(before)
    ensures forall i :: 0 <= i < |before| ==> IsSpace(line[i])
  {
  }

  /** The first character that is no space is the same however it is found. */
  lemma MarkIsFirst(line: string, before: string, word: string, after: string, b: string, rest: string)
    requires line == before + word + after && Blank(before) && Spaceless(word) && word != []
    requires line == b + ['#'] + rest && Blank(b)
    ensures word[0] == '#'
  {
    BlankBegins(line, before);
    BlankBegins(line, b);
    assert line[|before|] == word[0] && line[|b|] == '#';
  }

  lemma CommentBegins(line: string, before: string, word: string, after: string)
    requires Cuts(line, [], before, word, after) && word != []
    ensures IsComment(line) <==> word[0] == '#'
  {
    if word[0] == '#' {
      assert line == before + ['#'] + (word[1..] + after);
    }
    if b, rest :| line == b + ['#'] + rest && Blank(b) {
      MarkIsFirst(line, before, word, after, b, rest);
    }
  }

  lemma CommentIsNotBlank(line: string)
    ensures IsComment(line) ==> !Blank(line)
  {
    if b, rest :| line == b + ['#'] + rest && Blank(b) {
      assert line[|b|] == '#';
    }
  }

  /** The lines that declare nothing and are no fault: blank ones and comments. */
  lemma SkippedIff(line: string)
    ensures Skipped(line) <==> Blank(line) || IsComment(line)
  {
    FieldsOfBlank(line);
    CommentIsNotBlank(line);
    if !Blank(line) {
      var before, word, after := FirstField(line, []);
      assert Fields(line, [])[0] == [] + word == word;
      assert Fields(line, [])[0] in Fields(line, []);
      CommentBegins(line, before, word, after);
    }
  }

  function ChannelText(c: Channel): string {
    match c
    case Stable => "stable"
    case Prerelease => "prerelease"
  }

  /** A line declares a version and its channel: the two words, with space between
      them and any around them. */
  ghost predicate DeclaresAs(line: string, d: Declaration, before: string, between: string, after: string) {
    && line == before + Print(d.version) + (between + ChannelText(d.channel) + after)
    && Blank(before) && Blank(between) && between != [] && Blank(after)
    && Representable(d.version)
  }

  lemma LastField(between: string, c: string, after: string)
    requires Blank(between) && Blank(after) && c != [] && Spaceless(c)
    ensures Fields(between + c + after, []) == [c]
  {
    assert between + c + after == between + (c + after);
    FieldsAfterBlank(between, c + after);
    FieldsOfWordThen(c, [], after);
    FieldsOfBlank(after);
    assert [] + c == c;
  }

  lemma TwoFields(before: string, v: string, between: string, c: string, after: string)
    requires Blank(before) && Blank(between) && Blank(after) && between != []
    requires v != [] && c != [] && Spaceless(v) && Spaceless(c)
    ensures Fields(before + v + (between + c + after), []) == [v, c]
  {
    var tail := between + c + after;
    assert tail[0] == between[0];
    assert before + v + tail == before + (v + tail);
    FieldsAfterBlank(before, v + tail);
    FieldsOfWordThen(v, [], tail);
    assert [] + v == v;
    LastField(between, c, after);
  }

  lemma DeclaredIsRead(line: string, d: Declaration, before: string, between: string, after: string)
    requires DeclaresAs(line, d, before, between, after)
    ensures ReadLine(line) == Some(d)
  {
    PrintHasNoSpace(d.version);
    ChannelHasNoSpace(d.channel);
    assert ChannelText(d.channel) == ChannelName(d.channel);
    forall i | 0 <= i < |Print(d.version)| ensures !IsSpace(Print(d.version)[i]) {
      assert Print(d.version)[i] in Print(d.version);
    }
    forall i | 0 <= i < |ChannelName(d.channel)| ensures !IsSpace(ChannelName(d.channel)[i]) {
      assert ChannelName(d.channel)[i] in ChannelName(d.channel);
    }
    PrintParses(d.version);
    TwoFields(before, Print(d.version), between, ChannelText(d.channel), after);
  }

  lemma Separated(rest: string, between: string, word: string, after: string)
    requires rest == between + word + after && Spaceless(word) && word != [] && IsSpace(rest[0])
    ensures between != []
  {
    assert rest[|between|] == word[0];
  }

  lemma ReadIsDeclared(line: string, d: Declaration) returns (before: string, between: string, after: string)
    requires ReadLine(line) == Some(d)
    ensures DeclaresAs(line, d, before, between, after)
  {
    var fields := Fields(line, []);
    var v, rest;
    before, v, rest := FirstField(line, []);
    assert fields[0] == [] + v == v && fields[1..] == Fields(rest, []);
    var c;
    between, c, after := FirstField(rest, []);
    assert fields[1] == [] + c == c && Fields(after, []) == [];
    FieldsOfBlank(after);
    ParsePrints(v);
    assert c in fields && c != [];
    Separated(rest, between, c, after);
    assert c == ChannelText(d.channel);
    assert line == before + v + (between + c + after);
  }

  /** Exactly which lines declare what. */
  lemma ReadLineIff(line: string, d: Declaration)
    ensures ReadLine(line) == Some(d) <==> exists before, between, after :: DeclaresAs(line, d, before, between, after)
  {
    if ReadLine(line) == Some(d) {
      var before, between, after := ReadIsDeclared(line, d);
    }
    if before, between, after :| DeclaresAs(line, d, before, between, after) {
      DeclaredIsRead(line, d, before, between, after);
    }
  }

  /** The lines that count are those no comment or blank line is among, in order. */
  lemma SignificantSays(xs: seq<string>, ys: seq<string>, line: string)
    ensures Significant(xs + ys) == Significant(xs) + Significant(ys)
    ensures Significant([line]) == if Blank(line) || IsComment(line) then [] else [line]
  {
    SignificantConcat(xs, ys);
    SkippedIff(line);
    assert [line][1..] == [];
  }

  /** One version is before another when it is smaller in the first part in which the
      two differ. */
  lemma BeforeSays(a: Version, b: Version)
    ensures Before(a, b) <==>
      if a.major != b.major then a.major < b.major
      else if a.minor != b.minor then a.minor < b.minor else a.patch < b.patch
  {
  }

  /** The white space of Unicode, by code point. */
  lemma SpacesAre(c: char)
    ensures IsSpace(c) <==>
      var n := c as int;
      || 9 <= n <= 13 || n == 32 || n == 133 || n == 160 || n == 5760 || 8192 <= n <= 8202
      || n == 8232 || n == 8233 || n == 8239 || n == 8287 || n == 12288
  {
  }
}
