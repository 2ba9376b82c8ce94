/** Reading and merging a .env file (read_env_file and write_env_file in scripts/wizard/writer.py). */
module EnvFile {
  import opened Wrappers

  // ---- characters and lines ----

  /** The characters at which a text is cut into lines. */
  predicate IsBreak(c: char) {
    var n := c as int;
    n == 0x0A || n == 0x0B || n == 0x0C || n == 0x0D || (0x1C <= n <= 0x1E) || n == 0x85 || n == 0x2028 || n == 0x2029
  }

  /** The characters that strip removes. */
  predicate IsSpace(c: char) {
    var n := c as int;
    || IsBreak(c) || n == 0x09 || n == 0x1F || n == 0x20 || n == 0xA0 || n == 0x1680 || (0x2000 <= n <= 0x200A)
    || n == 0x202F || n == 0x205F || n == 0x3000
  }

  predicate Unbroken(s: string) { forall i :: 0 <= i < |s| ==> !IsBreak(s[i]) }

  predicate Trimmed(s: string) { s != "" ==> !IsSpace(s[0]) && !IsSpace(s[|s| - 1]) }

  function TrimLeft(s: string): string
    decreases |s|
  {
    if s != "" && IsSpace(s[0]) then TrimLeft(s[1..]) else s
  }

  function TrimRight(s: string): string
    decreases |s|
  {
    if s != "" && IsSpace(s[|s| - 1]) then TrimRight(s[..|s| - 1]) else s
  }

  function Strip(s: string): string { TrimRight(TrimLeft(s)) }

  function FirstBreak(s: string): (i: nat)
    ensures i <= |s| && Unbroken(s[..i]) && (i < |s| ==> IsBreak(s[i]))
    decreases |s|
  {
    if s == "" || IsBreak(s[0]) then 0
    else
      var i := FirstBreak(s[1..]);
      assert s[..i + 1] == [s[0]] + s[1..][..i];
      i + 1
  }

  /** Lines of a text; a carriage return followed by a line feed is one break, and a final break ends the last line. */
  function SplitLines(s: string): seq<string>
    decreases |s|
  {
    if s == "" then []
    else
      var i := FirstBreak(s);
      if i == |s| then [s]
      else if s[i] == '\r' && i + 1 < |s| && s[i + 1] == '\n' then [s[..i]] + SplitLines(s[i + 2..])
      else [s[..i]] + SplitLines(s[i + 1..])
  }

  function Join(lines: seq<string>): string
    decreases |lines|
  {
    if lines == [] then "" else if |lines| == 1 then lines[0] else lines[0] + "\n" + Join(lines[1..])
  }

  function FirstEquals(s: string): (i: nat)
    ensures i <= |s| && '=' !in s[..i] && (i < |s| ==> s[i] == '=')
    ensures i == |s| ==> '=' !in s
    decreases |s|
  {
    if s == "" || s[0] == '=' then 0
    else
      var i := FirstEquals(s[1..]);
      assert s[..i + 1] == [s[0]] + s[1..][..i];
      i + 1
  }

  // ---- one line ----

  /** The setting a line makes; comments, blanks and lines without = make none. */
  function ParseLine(line: string): Option<(string, string)> {
    var l := Strip(line);
    var i := FirstEquals(l);
    if l == "" || l[0] == '#' || i == |l| then None
    else Some((Strip(l[..i]), Strip(l[i + 1..])))
  }

  predicate WellFormed(key: string, value: string) {
    Trimmed(key) && Trimmed(value) && '=' !in key && (key != "" ==> key[0] != '#')
  }

  function Setting(key: string, value: string): string { key + ("=" + value) }

  lemma {:induction false} TrimLeftFacts(s: string)
    ensures var t := TrimLeft(s); |t| <= |s| && t == s[|s| - |t|..] && (t != "" ==> !IsSpace(t[0]))
    ensures s != "" && !IsSpace(s[0]) ==> TrimLeft(s) == s
    decreases |s|
  {
    if s != "" && IsSpace(s[0]) { TrimLeftFacts(s[1..]); }
  }

  lemma {:induction false} TrimRightFacts(s: string)
    ensures var t := TrimRight(s); |t| <= |s| && t == s[..|t|] && (t != "" ==> !IsSpace(t[|t| - 1]))
    ensures s != "" && !IsSpace(s[|s| - 1]) ==> TrimRight(s) == s
    decreases |s|
  {
    if s != "" && IsSpace(s[|s| - 1]) { TrimRightFacts(s[..|s| - 1]); }
  }

  lemma StripFacts(s: string)
    ensures Trimmed(Strip(s))
    ensures Trimmed(s) ==> Strip(s) == s
    ensures forall c :: c in Strip(s) ==> c in s
    ensures s != "" && !IsSpace(s[0]) ==> Strip(s) != "" && Strip(s)[0] == s[0]
  {
    TrimLeftFacts(s);
    TrimRightFacts(TrimLeft(s));
    if s != "" && !IsSpace(s[0]) { TrimRightKeepsHead(s); }
  }

  lemma {:induction false} TrimRightKeepsHead(s: string)
    requires s != "" && !IsSpace(s[0])
    ensures TrimRight(s) != "" && TrimRight(s)[0] == s[0]
    decreases |s|
  {
    if IsSpace(s[|s| - 1]) { TrimRightKeepsHead(s[..|s| - 1]); }
  }

  lemma {:induction false} FirstEqualsAt(key: string, rest: string)
    requires '=' !in key
    ensures FirstEquals(key + ("=" + rest)) == |key|
    decreases |key|
  {
    var s := key + ("=" + rest);
    if key != "" {
      assert s[1..] == key[1..] + ("=" + rest);
      assert s[0] == key[0] && key[0] in key;
      FirstEqualsAt(key[1..], rest);
    }
  }

  lemma StripTrimmed(s: string)
    requires Trimmed(s)
    ensures Strip(s) == s
  {
    StripFacts(s);
  }

  lemma ParseTrimmed(l: string)
    requires l != "" && Trimmed(l) && l[0] != '#' && FirstEquals(l) < |l|
    ensures var i := FirstEquals(l); ParseLine(l) == Some((Strip(l[..i]), Strip(l[i + 1..])))
  {
    StripTrimmed(l);
  }

  lemma SettingParts(key: string, value: string)
    ensures var line := Setting(key, value);
            |line| > |key| && line[..|key|] == key && line[|key| + 1..] == value
  {
  }

  lemma SettingIsTrimmed(key: string, value: string)
    requires WellFormed(key, value)
    ensures var line := Setting(key, value); |line| > |key| && Trimmed(line) && line[0] != '#'
  {
    var line := Setting(key, value);
    assert line[|line| - 1] == if value == "" then '=' else value[|value| - 1];
    assert line[0] == if key == "" then '=' else key[0];
  }

  lemma WrittenLineReads(key: string, value: string)
    requires WellFormed(key, value)
    ensures ParseLine(Setting(key, value)) == Some((key, value))
  {
    SettingIsTrimmed(key, value);
    FirstEqualsAt(key, value);
    ParseTrimmed(Setting(key, value));
    SettingParts(key, value);
    StripTrimmed(key);
    StripTrimmed(value);
  }

  lemma ReadLineWellFormed(line: string)
    requires ParseLine(line).Some?
    ensures Trimmed(ParseLine(line).value.0) && Trimmed(ParseLine(line).value.1) && '=' !in ParseLine(line).value.0
    ensures var k := ParseLine(line).value.0; k != "" ==> k[0] != '#'
  {
    var l := Strip(line);
    var i := FirstEquals(l);
    StripFacts(line);
    StripFacts(l[..i]);
    StripFacts(l[i + 1..]);
  }

  /** A setting reads back as itself exactly when its key and value are well formed. */
  lemma LineRoundTripsExactly(key: string, value: string)
    ensures ParseLine(Setting(key, value)) == Some((key, value)) <==> WellFormed(key, value)
  {
    if WellFormed(key, value) {
      WrittenLineReads(key, value);
    } else if ParseLine(Setting(key, value)).Some? {
      ReadLineWellFormed(Setting(key, value));
    }
  }

  // ---- whole files ----

  function Read(lines: seq<string>): map<string, string>
    decreases |lines|
  {
    if lines == [] then map[]
    else ReadLine(Read(lines[..|lines| - 1]), lines[|lines| - 1])
  }

  /** One line read on top of a mapping. */
  function ReadLine(settings: map<string, string>, line: string): map<string, string> {
    match ParseLine(line)
    case None => settings
    case Some(p) => settings[p.0 := p.1]
  }

  lemma ReadOneMore(lines: seq<string>, i: nat)
    requires i < |lines|
    ensures Read(lines[..i + 1]) == ReadLine(Read(lines[..i]), lines[i])
  {
    assert lines[..i + 1][..i] == lines[..i];
  }

  method ReadEnvLines(lines: seq<string>) returns (result: map<string, string>)
    ensures result == Read(lines)
  {
    result := map[];
    for i := 0 to |lines|
      invariant result == Read(lines[..i])
    {
      var line := Strip(lines[i]);
      var at := FirstEquals(line);
      if line != "" && line[0] != '#' && at < |line| {
        result := result[Strip(line[..at]) := Strip(line[at + 1..])];
      }
      ReadOneMore(lines, i);
    }
    assert lines[..|lines|] == lines;
  }

  /** The pairs to write: a dictionary, with its insertion order. */
  datatype Pairs = Pairs(keys: seq<string>, values: map<string, string>)

  ghost predicate IsDictionary(p: Pairs) {
    && (forall k :: k in p.keys <==> k in p.values)
    && (forall i, j :: 0 <= i < j < |p.keys| ==> p.keys[i] != p.keys[j])
  }

  ghost predicate Writable(p: Pairs) {
    IsDictionary(p) && forall k :: k in p.values ==> WellFormed(k, p.values[k]) && Unbroken(k) && Unbroken(p.values[k])
  }

  predicate Rewrites(line: string, p: Pairs) { ParseLine(line).Some? && ParseLine(line).value.0 in p.values }

  function NewLine(line: string, p: Pairs): string {
    if Rewrites(line, p) then Setting(ParseLine(line).value.0, p.values[ParseLine(line).value.0]) else line
  }

  function Rewritten(lines: seq<string>, p: Pairs): seq<string> {
    seq(|lines|, i requires 0 <= i < |lines| => NewLine(lines[i], p))
  }

  function Updated(lines: seq<string>, p: Pairs): set<string> {
    set line | line in lines && Rewrites(line, p) :: ParseLine(line).value.0
  }

  function Appended(keys: seq<string>, values: map<string, string>, updated: set<string>): seq<string>
    requires forall k :: k in keys ==> k in values
    decreases |keys|
  {
    if keys == [] then []
    else
      var k := keys[|keys| - 1];
      Appended(keys[..|keys| - 1], values, updated) + if k in updated then [] else [Setting(k, values[k])]
  }

  function Write(lines: seq<string>, p: Pairs): seq<string>
    requires IsDictionary(p)
  {
    Rewritten(lines, p) + Appended(p.keys, p.values, Updated(lines, p))
  }

  method WriteEnvLines(lines: seq<string>, p: Pairs) returns (newLines: seq<string>)
    requires IsDictionary(p)
    ensures newLines == Write(lines, p)
  {
    newLines := [];
    var updated: set<string> := {};
    for i := 0 to |lines|
      invariant newLines == Rewritten(lines[..i], p)
      invariant updated == Updated(lines[..i], p)
    {
      var line := lines[i];
      assert lines[..i + 1] == lines[..i] + [line];
      var setting := ParseLine(line);
      if setting.Some? && setting.value.0 in p.values {
        var key := setting.value.0;
        newLines := newLines + [key + ("=" + p.values[key])];
        updated := updated + {key};
      } else {
        newLines := newLines + [line];
      }
    }
    assert lines[..|lines|] == lines;
    ghost var body := newLines;
    for j := 0 to |p.keys|
      invariant newLines == body + Appended(p.keys[..j], p.values, updated)
    {
      var key := p.keys[j];
      assert p.keys[..j + 1][..j] == p.keys[..j];
      if key !in updated { newLines := newLines + [key + ("=" + p.values[key])]; }
    }
    assert p.keys[..|p.keys|] == p.keys;
  }

  /** Comments, blanks and settings of other keys keep their content and place; new settings come last. */
  lemma UntouchedLinesStay(lines: seq<string>, p: Pairs)
    requires IsDictionary(p)
    ensures |Write(lines, p)| >= |lines|
    ensures forall i :: 0 <= i < |lines| && !Rewrites(lines[i], p) ==> Write(lines, p)[i] == lines[i]
    ensures forall i :: 0 <= i < |lines| && Rewrites(lines[i], p) ==>
              Write(lines, p)[i] == Setting(ParseLine(lines[i]).value.0, p.values[ParseLine(lines[i]).value.0])
  {
  }

  lemma {:induction false} ReadAppend(a: seq<string>, b: seq<string>)
    ensures Read(a + b) == Read(a) + Read(b)
    decreases |b|
  {
    if b == [] {
      assert a + b == a;
    } else {
      assert (a + b)[..|a + b| - 1] == a + b[..|b| - 1];
      ReadAppend(a, b[..|b| - 1]);
    }
  }

  /** Reading rewritten lines: written keys that occurred have their new value, others their old one. */
  lemma {:induction false} ReadRewritten(lines: seq<string>, p: Pairs)
    requires Writable(p)
    ensures var r := Read(Rewritten(lines, p));
            && r.Keys == Read(lines).Keys
            && (forall k :: k in r ==> r[k] == if k in p.values then p.values[k] else Read(lines)[k])
            && (forall k :: k in p.values ==> (k in r <==> k in Updated(lines, p)))
    decreases |lines|
  {
    if lines != [] {
      var n := |lines| - 1;
      ReadRewritten(lines[..n], p);
      assert Rewritten(lines, p)[..n] == Rewritten(lines[..n], p);
      assert Read(Rewritten(lines, p)) == ReadLine(Read(Rewritten(lines[..n], p)), NewLine(lines[n], p));
      assert Read(lines) == ReadLine(Read(lines[..n]), lines[n]);
      UpdatedOneMore(lines, p);
      NewLineParses(lines[n], p);
    }
  }

  /** A rewritten line sets the same key, to the new value; any other line sets what it did. */
  lemma NewLineParses(line: string, p: Pairs)
    requires Writable(p)
    ensures ParseLine(NewLine(line, p))
         == if Rewrites(line, p) then Some((ParseLine(line).value.0, p.values[ParseLine(line).value.0]))
             else ParseLine(line)
  {
    if Rewrites(line, p) { WrittenLineReads(ParseLine(line).value.0, p.values[ParseLine(line).value.0]); }
  }

  lemma UpdatedOneMore(lines: seq<string>, p: Pairs)
    requires lines != []
    ensures var n := |lines| - 1;
            Updated(lines, p)
            == Updated(lines[..n], p) + if Rewrites(lines[n], p) then {ParseLine(lines[n]).value.0} else {}
  {
    assert lines == lines[..|lines| - 1] + [lines[|lines| - 1]];
  }

  lemma ReadSetting(lines: seq<string>, key: string, value: string)
    requires WellFormed(key, value)
    ensures Read(lines + [Setting(key, value)]) == Read(lines)[key := value]
  {
    WrittenLineReads(key, value);
    assert (lines + [Setting(key, value)])[..|lines|] == lines;
  }

  lemma {:induction false} ReadAppended(keys: seq<string>, p: Pairs, updated: set<string>)
    requires Writable(p) && forall k :: k in keys ==> k in p.values
    ensures var r := Read(Appended(keys, p.values, updated));
            && (forall k :: k in r <==> k in keys && k !in updated)
            && (forall k :: k in r ==> r[k] == p.values[k])
    decreases |keys|
  {
    if keys != [] {
      var n := |keys| - 1;
      var before := Appended(keys[..n], p.values, updated);
      ReadAppended(keys[..n], p, updated);
      assert forall k :: k in keys <==> k in keys[..n] || k == keys[n];
      if keys[n] in updated {
        assert Appended(keys, p.values, updated) == before;
      } else {
        ReadSetting(before, keys[n], p.values[keys[n]]);
      }
    }
  }

  /** Reading after writing is the old mapping overridden by the pairs, duplicate lines included. */
  lemma ReadAfterWrite(lines: seq<string>, p: Pairs)
    requires Writable(p)
    ensures Read(Write(lines, p)) == Read(lines) + p.values
  {
    var updated := Updated(lines, p);
    ReadRewritten(lines, p);
    ReadAppended(p.keys, p, updated);
    ReadAppend(Rewritten(lines, p), Appended(p.keys, p.values, updated));
    OverrideInTwo(Read(lines), p.values, Read(Rewritten(lines, p)), Read(Appended(p.keys, p.values, updated)), updated);
  }

  /** Overriding in place what is there and then adding the rest is overriding with everything. */
  lemma OverrideInTwo(before: map<string, string>, pairs: map<string, string>, first: map<string, string>,
                      rest: map<string, string>, updated: set<string>)
    requires first.Keys == before.Keys && forall k :: k in first ==>
             first[k] == if k in pairs then pairs[k] else before[k]
    requires forall k :: k in pairs ==> (k in first <==> k in updated)
    requires forall k :: k in rest <==> k in pairs && k !in updated
    requires forall k :: k in rest ==> rest[k] == pairs[k]
    ensures first + rest == before + pairs
  {
  }

  /** A line made from one of the pairs. */
  ghost predicate IsSetting(line: string, p: Pairs) { exists k :: k in p.values && line == Setting(k, p.values[k]) }

  lemma {:induction false} AppendedLines(keys: seq<string>, p: Pairs, updated: set<string>)
    requires forall k :: k in keys ==> k in p.values
    ensures forall line :: line in Appended(keys, p.values, updated) ==> IsSetting(line, p)
    ensures forall k :: k in keys && k !in updated ==> Setting(k, p.values[k]) in Appended(keys, p.values, updated)
    ensures (forall k :: k in keys ==> k in updated) ==> Appended(keys, p.values, updated) == []
    decreases |keys|
  {
    if keys != [] {
      var n := |keys| - 1;
      AppendedLines(keys[..n], p, updated);
      assert keys == keys[..n] + [keys[n]];
    }
  }

  lemma SettingFacts(line: string, p: Pairs)
    requires Writable(p) && IsSetting(line, p)
    ensures Rewrites(line, p) && NewLine(line, p) == line && Unbroken(line)
  {
    var k :| k in p.values && line == Setting(k, p.values[k]);
    WrittenLineReads(k, p.values[k]);
    SettingUnbroken(k, p.values[k]);
  }

  lemma SettingUnbroken(key: string, value: string)
    requires Unbroken(key) && Unbroken(value)
    ensures Unbroken(Setting(key, value))
  {
  }

  lemma AppendedFacts(keys: seq<string>, p: Pairs, updated: set<string>)
    requires Writable(p) && forall k :: k in keys ==> k in p.values
    ensures forall line :: line in Appended(keys, p.values, updated) ==>
            Rewrites(line, p) && NewLine(line, p) == line && Unbroken(line)
    ensures forall k :: k in keys && k !in updated ==> Setting(k, p.values[k]) in Appended(keys, p.values, updated)
    ensures (forall k :: k in keys ==> k in updated) ==> Appended(keys, p.values, updated) == []
  {
    AppendedLines(keys, p, updated);
    forall line | line in Appended(keys, p.values, updated)
      ensures Rewrites(line, p) && NewLine(line, p) == line && Unbroken(line)
    {
      SettingFacts(line, p);
    }
  }

  lemma NewLineSettled(line: string, p: Pairs)
    requires Writable(p)
    ensures NewLine(NewLine(line, p), p) == NewLine(line, p)
    ensures Rewrites(line, p) ==>
            Rewrites(NewLine(line, p), p) && ParseLine(NewLine(line, p)).value.0 == ParseLine(line).value.0
  {
    if Rewrites(line, p) {
      WrittenLineReads(ParseLine(line).value.0, p.values[ParseLine(line).value.0]);
    }
  }

  /** Every written key has a line after a write, so a second write appends nothing. */
  lemma AllUpdated(lines: seq<string>, p: Pairs, k: string)
    requires Writable(p) && k in p.values
    ensures k in Updated(Write(lines, p), p)
  {
    var w := Write(lines, p);
    var updated := Updated(lines, p);
    AppendedFacts(p.keys, p, updated);
    if k in updated {
      var line :| line in lines && Rewrites(line, p) && ParseLine(line).value.0 == k;
      var i :| 0 <= i < |lines| && lines[i] == line;
      NewLineSettled(line, p);
      assert w[i] == NewLine(line, p) && w[i] in w;
    } else {
      WrittenLineReads(k, p.values[k]);
      assert Setting(k, p.values[k]) in w;
    }
  }

  lemma SettledLine(lines: seq<string>, p: Pairs, i: nat)
    requires Writable(p) && i < |Write(lines, p)|
    ensures NewLine(Write(lines, p)[i], p) == Write(lines, p)[i]
  {
    var added := Appended(p.keys, p.values, Updated(lines, p));
    if i < |lines| {
      NewLineSettled(lines[i], p);
    } else {
      AppendedFacts(p.keys, p, Updated(lines, p));
      assert added[i - |lines|] in added;
    }
  }

  lemma SettledLines(lines: seq<string>, p: Pairs)
    requires Writable(p)
    ensures Rewritten(Write(lines, p), p) == Write(lines, p)
  {
    forall i | 0 <= i < |Write(lines, p)| ensures NewLine(Write(lines, p)[i], p) == Write(lines, p)[i] {
      SettledLine(lines, p, i);
    }
  }

  lemma NothingMissing(lines: seq<string>, p: Pairs)
    requires Writable(p)
    ensures Appended(p.keys, p.values, Updated(Write(lines, p), p)) == []
  {
    forall k | k in p.keys ensures k in Updated(Write(lines, p), p) { AllUpdated(lines, p, k); }
    AppendedFacts(p.keys, p, Updated(Write(lines, p), p));
  }

  /** Writing the same pairs twice is writing them once. */
  lemma WriteTwice(lines: seq<string>, p: Pairs)
    requires Writable(p)
    ensures Write(Write(lines, p), p) == Write(lines, p)
  {
    SettledLines(lines, p);
    NothingMissing(lines, p);
  }

  // ---- texts ----

  /** The text of a file, None when it does not exist. */
  function LinesOf(file: Option<string>): seq<string> { if file.Some? then SplitLines(file.value) else [] }

  function ReadFile(file: Option<string>): map<string, string> { Read(LinesOf(file)) }

  function WriteFile(file: Option<string>, p: Pairs): string
    requires IsDictionary(p)
  {
    Join(Write(LinesOf(file), p)) + "\n"
  }

  lemma {:induction false} SplitUnbroken(s: string)
    ensures forall line :: line in SplitLines(s) ==> Unbroken(line)
    decreases |s|
  {
    if s != "" {
      var i := FirstBreak(s);
      if i < |s| {
        if s[i] == '\r' && i + 1 < |s| && s[i + 1] == '\n' {
          SplitUnbroken(s[i + 2..]);
        } else {
          SplitUnbroken(s[i + 1..]);
        }
      } else {
        assert s[..i] == s;
      }
    }
  }

  lemma {:induction false} FirstBreakAt(line: string, rest: string)
    requires Unbroken(line)
    ensures FirstBreak(line + ("\n" + rest)) == |line|
    decreases |line|
  {
    var s := line + ("\n" + rest);
    if line == "" {
      assert s[0] == '\n';
    } else {
      assert s[1..] == line[1..] + ("\n" + rest);
      FirstBreakAt(line[1..], rest);
    }
  }

  lemma SplitFirst(line: string, rest: string)
    requires Unbroken(line)
    ensures SplitLines(line + ("\n" + rest)) == [line] + SplitLines(rest)
  {
    var s := line + ("\n" + rest);
    FirstBreakAt(line, rest);
    assert s[|line|] == '\n' && s[..|line|] == line && s[|line| + 1..] == rest;
  }

  /** Joining lines and cutting them again gives them back; only the empty list becomes one empty line. */
  lemma {:induction false} SplitJoin(lines: seq<string>)
    requires forall line :: line in lines ==> Unbroken(line)
    ensures SplitLines(Join(lines) + "\n") == if lines == [] then [""] else lines
    decreases |lines|
  {
    if lines == [] {
      assert Join(lines) + "\n" == "" + ("\n" + "");
      SplitFirst("", "");
    } else if |lines| == 1 {
      assert Join(lines) + "\n" == lines[0] + ("\n" + "");
      SplitFirst(lines[0], "");
    } else {
      assert Join(lines) + "\n" == lines[0] + ("\n" + (Join(lines[1..]) + "\n"));
      SplitFirst(lines[0], Join(lines[1..]) + "\n");
      SplitJoin(lines[1..]);
    }
  }

  lemma WrittenUnbroken(lines: seq<string>, p: Pairs)
    requires Writable(p) && forall line :: line in lines ==> Unbroken(line)
    ensures forall line :: line in Write(lines, p) ==> Unbroken(line)
  {
    AppendedFacts(p.keys, p, Updated(lines, p));
    forall i | 0 <= i < |lines| ensures Unbroken(NewLine(lines[i], p)) {
      assert lines[i] in lines;
      if Rewrites(lines[i], p) {
        assert IsSetting(NewLine(lines[i], p), p);
        SettingFacts(NewLine(lines[i], p), p);
      }
    }
  }

  /** The file reads back as its old settings overridden by the pairs. */
  lemma FileRoundTrip(file: Option<string>, p: Pairs)
    requires Writable(p)
    ensures ReadFile(Some(WriteFile(file, p))) == ReadFile(file) + p.values
  {
    var lines := LinesOf(file);
    if file.Some? { SplitUnbroken(file.value); }
    WrittenUnbroken(lines, p);
    SplitJoin(Write(lines, p));
    ReadAfterWrite(lines, p);
    if Write(lines, p) == [] {
      assert Read([""]) == Read([]) by { assert [""][..0] == []; }
    }
  }

  /** Writing the same pairs to the file again leaves its text as it is. */
  lemma FileWriteTwice(file: Option<string>, p: Pairs)
    requires Writable(p)
    ensures WriteFile(Some(WriteFile(file, p)), p) == WriteFile(file, p)
  {
    var lines := LinesOf(file);
    if file.Some? { SplitUnbroken(file.value); }
    WrittenUnbroken(lines, p);
    SplitJoin(Write(lines, p));
    WriteTwice(lines, p);
    if Write(lines, p) == [] {
      assert p.keys == [] by { if p.keys != [] { AllUpdated(lines, p, p.keys[0]); } }
      assert Write([""], p) == [""];
    }
  }

  // ---- any line, any line break ----

  predicate Blank(s: string) { forall i :: 0 <= i < |s| ==> IsSpace(s[i]) }

  lemma {:induction false} TrimLeftPadding(pad: string, s: string)
    requires Blank(pad) && (s != "" ==> !IsSpace(s[0]))
    ensures TrimLeft(pad + s) == s
    decreases |pad|
  {
    if pad == "" {
      assert pad + s == s;
    } else {
      assert (pad + s)[1..] == pad[1..] + s && (pad + s)[0] == pad[0];
      TrimLeftPadding(pad[1..], s);
    }
  }

  lemma {:induction false} TrimRightPadding(s: string, pad: string)
    requires Blank(pad) && (s != "" ==> !IsSpace(s[|s| - 1]))
    ensures TrimRight(s + pad) == s
    decreases |pad|
  {
    if pad == "" {
      assert s + pad == s;
    } else {
      assert (s + pad)[..|s + pad| - 1] == s + pad[..|pad| - 1] && (s + pad)[|s + pad| - 1] == pad[|pad| - 1];
      TrimRightPadding(s, pad[..|pad| - 1]);
    }
  }

  /** Stripping takes the spaces around a text and nothing of the text. */
  lemma StripPadding(left: string, s: string, right: string)
    requires Blank(left) && Blank(right) && Trimmed(s)
    ensures Strip(left + s + right) == s
  {
    if s == "" {
      assert left + s + right == (left + right) + "";
      TrimLeftPadding(left + right, "");
    } else {
      assert left + s + right == left + (s + right);
      TrimLeftPadding(left, s + right);
      TrimRightPadding(s, right);
    }
  }

  lemma ParseStripped(line: string, l: string)
    requires Strip(line) == l && Trimmed(l)
    ensures ParseLine(line) == ParseLine(l)
  {
    StripTrimmed(l);
  }

  lemma PaddedInner(left: string, right: string)
    requires left != "" ==> !IsSpace(left[0]) && left[0] != '#'
    requires right != "" ==> !IsSpace(right[|right| - 1])
    ensures var inner := left + ("=" + right);
            && inner != "" && Trimmed(inner) && inner[0] != '#'
            && inner[..|left|] == left && inner[|left| + 1..] == right && |left| < |inner|
  {
    var inner := left + ("=" + right);
    assert inner[0] == if left == "" then '=' else left[0];
    assert inner[|inner| - 1] == if right == "" then '=' else right[|right| - 1];
  }

  lemma BlankHasNoEquals(s: string)
    requires Blank(s)
    ensures '=' !in s
  {
  }

  /** A setting reads the same with any spaces around its key, its equals sign and its value; the value may
      itself contain equals signs. */
  lemma PaddedSettingReads(key: string, value: string, a: string, b: string, c: string, d: string)
    requires WellFormed(key, value) && Blank(a) && Blank(b) && Blank(c) && Blank(d)
    requires (key == "" ==> b == "") && (value == "" ==> c == "")
    ensures ParseLine(a + ((key + b) + ("=" + (c + value))) + d) == Some((key, value))
  {
    BlankHasNoEquals(b);
    PaddedHalves(key, value, b, c);
    InnerReads(key + b, c + value, a, d);
    StripAround(key, b, c, value);
  }

  lemma PaddedHalves(key: string, value: string, b: string, c: string)
    requires WellFormed(key, value) && '=' !in b && (key == "" ==> b == "") && (value == "" ==> c == "")
    ensures var left := key + b; '=' !in left && (left != "" ==> !IsSpace(left[0]) && left[0] != '#')
    ensures var right := c + value; right != "" ==> !IsSpace(right[|right| - 1])
  {
  }

  /** A line is cut at its first equals sign. */
  lemma InnerReads(left: string, right: string, a: string, d: string)
    requires '=' !in left && Blank(a) && Blank(d)
    requires left != "" ==> !IsSpace(left[0]) && left[0] != '#'
    requires right != "" ==> !IsSpace(right[|right| - 1])
    ensures ParseLine(a + (left + ("=" + right)) + d) == Some((Strip(left), Strip(right)))
  {
    var inner := left + ("=" + right);
    PaddedInner(left, right);
    StripPadding(a, inner, d);
    ParseStripped(a + inner + d, inner);
    FirstEqualsAt(left, right);
    ParseTrimmed(inner);
  }

  lemma StripAround(key: string, b: string, c: string, value: string)
    requires Trimmed(key) && Trimmed(value) && Blank(b) && Blank(c)
    ensures Strip(key + b) == key && Strip(c + value) == value
  {
    StripPadding("", key, b);
    StripPadding(c, value, "");
    assert "" + key + b == key + b && c + value + "" == c + value;
  }

  /** A line makes no setting exactly when what is left of it without its surrounding spaces is empty, starts
      with a hash, or has no equals sign. */
  lemma IgnoredExactly(line: string, left: string, inner: string, right: string)
    requires line == left + inner + right && Blank(left) && Blank(right) && Trimmed(inner)
    ensures ParseLine(line).None? <==> inner == "" || inner[0] == '#' || '=' !in inner
  {
    StripPadding(left, inner, right);
    if inner != "" && FirstEquals(inner) < |inner| { assert inner[FirstEquals(inner)] in inner; }
  }

  lemma {:induction false} FirstBreakBefore(line: string, c: char, rest: string)
    requires Unbroken(line) && IsBreak(c)
    ensures FirstBreak(line + ([c] + rest)) == |line|
    decreases |line|
  {
    var s := line + ([c] + rest);
    if line == "" {
      assert s[0] == c;
    } else {
      assert s[1..] == line[1..] + ([c] + rest);
      FirstBreakBefore(line[1..], c, rest);
    }
  }

  /** Any break character ends a line, and a carriage return with its line feed ends just one. */
  lemma BreaksEndLines(line: string, c: char, rest: string)
    requires Unbroken(line) && IsBreak(c)
    ensures !(c == '\r' && rest != "" && rest[0] == '\n') ==>
            SplitLines(line + ([c] + rest)) == [line] + SplitLines(rest)
    ensures SplitLines(line + (['\r'] + (['\n'] + rest))) == [line] + SplitLines(rest)
  {
    var s := line + ([c] + rest);
    FirstBreakBefore(line, c, rest);
    assert s[|line|] == c && s[..|line|] == line && s[|line| + 1..] == rest;
    var two := line + (['\r'] + (['\n'] + rest));
    FirstBreakBefore(line, '\r', ['\n'] + rest);
    assert two[|line|] == '\r' && two[|line| + 1] == '\n' && two[..|line|] == line && two[|line| + 2..] == rest;
  }
}
