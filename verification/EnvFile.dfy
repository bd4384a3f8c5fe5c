/** The two-line KEY=VALUE file the vault keeps its keys in: a printer and a hand-written parser. */
module EnvFile {
  import opened Wrappers

  /** What a strip removes: Python's white space, or one kind of quote. */
  datatype Class = Space | Double | Single

  predicate In(c: char, k: Class) {
    match k
    case Double => c == '"'
    case Single => c == '\''
    case Space => IsControlSpace(c) || IsWideSpace(c)
  }

  predicate IsControlSpace(c: char) {
    c == ' ' || '\t' <= c <= '\r' || '\U{1c}' <= c <= '\U{1f}'
  }

  predicate IsWideSpace(c: char) {
    || c == '\U{85}' || c == '\U{a0}' || c == '\U{1680}' || '\U{2000}' <= c <= '\U{200a}'
    || c == '\U{2028}' || c == '\U{2029}' || c == '\U{202f}' || c == '\U{205f}' || c == '\U{3000}'
  }

  const MASTER := "VAULT_MASTER_KEY"
  const CONFIRM := "VAULT_CONFIRM_KEY"

  /** The characters that end a line when a file is read in text mode. */
  predicate IsBreak(c: char) { c == '\n' || c == '\r' }

  function StripLeft(s: string, k: Class): string {
    if s != "" && In(s[0], k) then StripLeft(s[1..], k) else s
  }

  function StripRight(s: string, k: Class): string {
    if s != "" && In(s[|s| - 1], k) then StripRight(s[..|s| - 1], k) else s
  }

  function Strip(s: string, k: Class): string {
    StripRight(StripLeft(s, k), k)
  }

  /** The lines of a text, without their ends. */
  function Lines(text: string): (r: seq<string>)
    ensures r != []
  {
    if text == "" then [""]
    else
      var rest := Lines(text[1..]);
      if IsBreak(text[0]) then [""] + rest else [[text[0]] + rest[0]] + rest[1..]
  }

  /** The position of the first '=', or the length. */
  function Find(s: string): (i: nat)
    ensures i <= |s|
    ensures '=' !in s[..i] && (i < |s| ==> s[i] == '=')
  {
    if s == "" || s[0] == '=' then 0 else 1 + Find(s[1..])
  }

  function CleanValue(v: string): string {
    Strip(Strip(Strip(v, Space), Double), Single)
  }

  /** One line's key and value; blank lines, comments and lines without '=' have none. */
  function ParseLine(raw: string): Option<(string, string)> {
    var line := Strip(raw, Space);
    if line == "" || line[0] == '#' || Find(line) == |line| then None
    else Some((Strip(line[..Find(line)], Space), CleanValue(line[Find(line) + 1..])))
  }

  datatype Keys = Keys(master: string, confirm: string)

  function ReadLine(keys: Keys, raw: string): Keys {
    match ParseLine(raw)
    case None => keys
    case Some((key, value)) =>
      if key == MASTER then keys.(master := value)
      else if key == CONFIRM then keys.(confirm := value)
      else keys
  }

  function ReadLines(lines: seq<string>): Keys {
    if lines == [] then Keys("", "") else ReadLine(ReadLines(lines[..|lines| - 1]), lines[|lines| - 1])
  }

  function Read(text: string): Keys {
    ReadLines(Lines(text))
  }

  function Write(keys: Keys): string {
    MASTER + "=" + keys.master + "\n" + CONFIRM + "=" + keys.confirm + "\n"
  }

  method ReadEnvFile(text: string) returns (keys: Keys)
    ensures keys == Read(text)
  {
    var lines := Lines(text);
    var master, confirm := "", "";
    for i := 0 to |lines|
      invariant Keys(master, confirm) == ReadLines(lines[..i])
    {
      assert lines[..i + 1][..i] == lines[..i];
      var line := Strip(lines[i], Space);
      if line == "" || line[0] == '#' || Find(line) == |line| {
        continue;
      }
      var key := Strip(line[..Find(line)], Space);
      var value := CleanValue(line[Find(line) + 1..]);
      if key == MASTER {
        master := value;
      } else if key == CONFIRM {
        confirm := value;
      }
    }
    assert lines[..|lines|] == lines;
    keys := Keys(master, confirm);
  }

  // ---------- Which keys survive the round trip ----------

  predicate OneLine(s: string) {
    forall i :: 0 <= i < |s| ==> !IsBreak(s[i])
  }

  predicate Fringe(c: char) { In(c, Space) || In(c, Double) || In(c, Single) }

  /** A value the file can hold: on one line, with neither a space nor a quote at either end. */
  predicate Writable(s: string) {
    && OneLine(s)
    && (s != "" ==> !Fringe(s[0]) && !Fringe(s[|s| - 1]))
  }

  lemma {:induction false} StripLeftSuffix(s: string, k: Class) returns (n: nat)
    ensures n <= |s| && StripLeft(s, k) == s[n..]
    ensures n == 0 <==> s == "" || !In(s[0], k)
  {
    if s != "" && In(s[0], k) {
      var rest := StripLeftSuffix(s[1..], k);
      n := rest + 1;
      assert s[1..][rest..] == s[n..];
    } else {
      n := 0;
    }
  }

  lemma {:induction false} StripRightPrefix(s: string, k: Class) returns (n: nat)
    ensures n <= |s| && StripRight(s, k) == s[..n]
    ensures n == |s| <==> s == "" || !In(s[|s| - 1], k)
  {
    if s != "" && In(s[|s| - 1], k) {
      n := StripRightPrefix(s[..|s| - 1], k);
      assert s[..|s| - 1][..n] == s[..n];
    } else {
      n := |s|;
      assert s[..n] == s;
    }
  }

  /** Stripping cuts out a piece, and cuts nothing off exactly when neither end is to be stripped. */
  lemma StripPiece(s: string, k: Class) returns (i: nat, j: nat)
    ensures i <= j <= |s| && Strip(s, k) == s[i..j]
    ensures Strip(s, k) == s <==> s == "" || (!In(s[0], k) && !In(s[|s| - 1], k))
  {
    i := StripLeftSuffix(s, k);
    var n := StripRightPrefix(s[i..], k);
    j := i + n;
    assert s[i..][..n] == s[i..j];
  }

  /** Stripping keeps a text on one line. */
  lemma StripKeepsLine(s: string, k: Class)
    ensures |Strip(s, k)| <= |s| && (OneLine(s) ==> OneLine(Strip(s, k)))
    ensures |Strip(s, k)| == |s| ==> Strip(s, k) == s
  {
    var i, j := StripPiece(s, k);
  }

  lemma CleanIsIdentity(v: string)
    ensures |CleanValue(v)| <= |v|
    ensures OneLine(v) ==> OneLine(CleanValue(v))
    ensures OneLine(v) ==> (CleanValue(v) == v <==> Writable(v))
  {
    var a := Strip(v, Space);
    var b := Strip(a, Double);
    StripKeepsLine(v, Space);
    StripKeepsLine(a, Double);
    StripKeepsLine(b, Single);
    var i, j := StripPiece(v, Space);
    var k, l := StripPiece(a, Double);
    var m, n := StripPiece(b, Single);
  }

  lemma {:induction false} LinesOf(a: string, rest: string, c: char)
    requires OneLine(a) && IsBreak(c)
    ensures Lines(a + [c] + rest) == [a] + Lines(rest)
  {
    var text := a + [c] + rest;
    if a == "" {
      assert text[1..] == rest;
    } else {
      assert text[1..] == a[1..] + [c] + rest;
      LinesOf(a[1..], rest, c);
      assert [a[0]] + a[1..] == a;
    }
  }

  lemma {:induction false} LinesAreLines(text: string)
    ensures forall i :: 0 <= i < |Lines(text)| ==> OneLine(Lines(text)[i])
  {
    if text != "" {
      LinesAreLines(text[1..]);
    }
  }

  lemma ParsedIsOneLine(raw: string)
    requires OneLine(raw) && ParseLine(raw).Some?
    ensures OneLine(ParseLine(raw).value.1)
  {
    var line := Strip(raw, Space);
    StripKeepsLine(raw, Space);
    var rest := line[Find(line) + 1..];
    assert OneLine(rest);
    CleanIsIdentity(rest);
  }

  lemma {:induction false} ReadIsOneLine(lines: seq<string>)
    requires forall i :: 0 <= i < |lines| ==> OneLine(lines[i])
    ensures OneLine(ReadLines(lines).master) && OneLine(ReadLines(lines).confirm)
  {
    if lines != [] {
      ReadIsOneLine(lines[..|lines| - 1]);
      if ParseLine(lines[|lines| - 1]).Some? {
        ParsedIsOneLine(lines[|lines| - 1]);
      }
    }
  }

  lemma {:induction false} FindAfter(key: string, value: string)
    requires '=' !in key
    ensures Find(key + "=" + value) == |key|
  {
    var s := key + "=" + value;
    if key != "" {
      assert s[1..] == key[1..] + "=" + value;
      FindAfter(key[1..], value);
    }
  }

  lemma {:induction false} StripRightAppend(a: string, v: string, k: Class)
    requires a != "" && !In(a[|a| - 1], k)
    ensures StripRight(a + v, k) == a + StripRight(v, k)
  {
    var s := a + v;
    if v != "" && In(v[|v| - 1], k) {
      assert s[..|s| - 1] == a + v[..|v| - 1];
      StripRightAppend(a, v[..|v| - 1], k);
    }
  }

  lemma {:induction false} StripAfterStripRight(v: string, k: Class)
    ensures Strip(StripRight(v, k), k) == Strip(v, k)
  {
    if v != "" && In(v[|v| - 1], k) {
      var u := v[..|v| - 1];
      StripAfterStripRight(u, k);
      StripDropsLast(u, v[|v| - 1], k);
      assert v == u + [v[|v| - 1]];
    }
  }

  lemma {:induction false} StripDropsLast(u: string, c: char, k: Class)
    requires In(c, k)
    ensures Strip(u + [c], k) == Strip(u, k)
  {
    var s := u + [c];
    if u == "" {
      assert StripLeft(s, k) == "" by { assert s[1..] == ""; }
    } else if In(u[0], k) {
      assert s[1..] == u[1..] + [c];
      StripDropsLast(u[1..], c, k);
    } else {
      assert s[..|s| - 1] == u;
    }
  }

  ghost predicate Blank(s: string) { forall i :: 0 <= i < |s| ==> In(s[i], Space) }

  lemma {:induction false} StripLeftBlank(gap: string, s: string)
    requires Blank(gap) && s != "" && !In(s[0], Space)
    ensures StripLeft(gap + s, Space) == s
  {
    if gap == "" {
      assert gap + s == s;
    } else {
      assert (gap + s)[1..] == gap[1..] + s;
      StripLeftBlank(gap[1..], s);
    }
  }

  lemma {:induction false} StripRightBlank(s: string, gap: string)
    requires Blank(gap) && s != "" && !In(s[|s| - 1], Space)
    ensures StripRight(s + gap, Space) == s
  {
    if gap == "" {
      assert s + gap == s;
    } else {
      assert (s + gap)[..|s + gap| - 1] == s + gap[..|gap| - 1];
      StripRightBlank(s, gap[..|gap| - 1]);
    }
  }

  /** A line with a key, an equals sign and a value: white space around the key does not count, quotes around it do, and
      the value is all that follows the first equals sign. */
  lemma LineHasKey(indent: string, key: string, gap: string, value: string)
    requires Blank(indent) && Blank(gap) && '=' !in gap
    requires key != "" && !In(key[0], Space) && !In(key[|key| - 1], Space) && '=' !in key && key[0] != '#'
    ensures ParseLine(indent + key + gap + "=" + value) == Some((key, CleanValue(value)))
  {
    var front := key + gap + "=";
    assert indent + key + gap + "=" + value == indent + (front + value);
    StripLeftBlank(indent, front + value);
    StripRightAppend(front, value, Space);
    var tail := StripRight(value, Space);
    FindAfter(key + gap, tail);
    assert (front + tail)[..|key + gap|] == key + gap && (front + tail)[|key + gap| + 1..] == tail;
    StripAfterStripRight(value, Space);
    StripLeftBlank("", key + gap);
    assert "" + (key + gap) == key + gap;
    StripRightBlank(key, gap);
  }

  lemma KeyNames(key: string)
    requires key == MASTER || key == CONFIRM
    ensures key != "" && !In(key[0], Space) && !In(key[|key| - 1], Space) && '=' !in key && key[0] != '#'
  {
  }

  /** Reading back one written line. */
  lemma WrittenLine(key: string, value: string)
    requires key in {MASTER, CONFIRM}
    ensures ParseLine(key + "=" + value) == Some((key, CleanValue(value)))
  {
    KeyNames(key);
    PlainLine(key, value);
  }

  lemma PlainLine(key: string, value: string)
    requires key != "" && !In(key[0], Space) && !In(key[|key| - 1], Space) && '=' !in key && key[0] != '#'
    ensures ParseLine(key + "=" + value) == Some((key, CleanValue(value)))
  {
    LineHasKey("", key, "", value);
    assert "" + key + "" + "=" + value == key + "=" + value;
  }

  /** What is written is read back exactly when both keys are on one line without spaces or quotes at their ends;
      an '=' anywhere in them, or at their end, does no harm. */
  lemma ReadAfterWrite(keys: Keys)
    ensures Read(Write(keys)) == keys <==> Writable(keys.master) && Writable(keys.confirm)
  {
    var text := Write(keys);
    LinesAreLines(text);
    ReadIsOneLine(Lines(text));
    if OneLine(keys.master) && OneLine(keys.confirm) {
      ReadBack(keys);
      CleanIsIdentity(keys.master);
      CleanIsIdentity(keys.confirm);
    }
  }

  lemma LinesWritten(first: string, second: string)
    requires OneLine(first) && OneLine(second)
    ensures Lines(first + "\n" + second + "\n") == [first, second, ""]
  {
    var rest := second + ['\n'] + "";
    LinesOf(first, rest, '\n');
    LinesOf(second, "", '\n');
    assert first + "\n" + second + "\n" == first + ['\n'] + rest;
  }

  lemma ReadBack(keys: Keys)
    requires OneLine(keys.master) && OneLine(keys.confirm)
    ensures Read(Write(keys)) == Keys(CleanValue(keys.master), CleanValue(keys.confirm))
  {
    var first, second := MASTER + "=" + keys.master, CONFIRM + "=" + keys.confirm;
    LinesWritten(first, second);
    assert Write(keys) == first + "\n" + second + "\n";
    WrittenLine(MASTER, keys.master);
    WrittenLine(CONFIRM, keys.confirm);
    ReadThree(first, second);
  }

  lemma ReadThree(first: string, second: string)
    ensures ReadLines([first, second, ""]) == ReadLine(ReadLine(Keys("", ""), first), second)
  {
    var lines := [first, second, ""];
    assert lines[..2] == [first, second] && [first, second][..1] == [first] && [first][..0] == [];
    assert ReadLines([first]) == ReadLine(Keys("", ""), first);
  }

  // ---------- What is read from any file ----------

  ghost predicate Sets(raw: string, key: string) {
    exists v :: ParseLine(raw) == Some((key, v))
  }

  function ValueOf(keys: Keys, key: string): string { if key == MASTER then keys.master else keys.confirm }

  lemma ReadLineKeeps(keys: Keys, raw: string, key: string)
    requires key == MASTER || key == CONFIRM
    ensures forall v :: ParseLine(raw) == Some((key, v)) ==> ValueOf(ReadLine(keys, raw), key) == v
    ensures !Sets(raw, key) ==> ValueOf(ReadLine(keys, raw), key) == ValueOf(keys, key)
  {
    assert MASTER != CONFIRM by { assert MASTER[6] != CONFIRM[6]; }
    if ParseLine(raw).Some? {
      assert Sets(raw, ParseLine(raw).value.0);
    }
  }

  /** Each key has the value of its last line, whatever the other lines say. */
  lemma {:induction false} LastLineWins(lines: seq<string>, i: nat, key: string, v: string)
    requires i < |lines| && (key == MASTER || key == CONFIRM) && ParseLine(lines[i]) == Some((key, v))
    requires forall j :: i < j < |lines| ==> !Sets(lines[j], key)
    ensures ValueOf(ReadLines(lines), key) == v
  {
    var n := |lines| - 1;
    ReadLineKeeps(ReadLines(lines[..n]), lines[n], key);
    if i < n {
      LastLineWins(lines[..n], i, key, v);
    }
  }

  /** A key without a line is empty. */
  lemma {:induction false} NoLineNoValue(lines: seq<string>, key: string)
    requires (key == MASTER || key == CONFIRM) && forall j :: 0 <= j < |lines| ==> !Sets(lines[j], key)
    ensures ValueOf(ReadLines(lines), key) == ""
  {
    if lines != [] {
      var n := |lines| - 1;
      ReadLineKeeps(ReadLines(lines[..n]), lines[n], key);
      NoLineNoValue(lines[..n], key);
    }
  }

  /** Comments, and lines without '=', say nothing. */
  lemma SilentLines(s: string)
    ensures ParseLine("#" + s) == None
    ensures '=' !in s ==> ParseLine(s) == None
  {
    var raw := "#" + s;
    var i, j := StripPiece(raw, Space);
    var n := StripLeftSuffix(raw, Space);
    var m := StripRightPrefix(raw, Space);
    if '=' !in s {
      var k, l := StripPiece(s, Space);
      assert forall x :: x in s[k..l] ==> x in s;
    }
  }

  /** Of quotes around a value, double ones come off before single ones, and what is inside stays. */
  lemma QuotesComeOff(v: string)
    requires v != "" && !In(v[0], Double) && !In(v[0], Single) && !In(v[|v| - 1], Double) && !In(v[|v| - 1], Single)
    ensures CleanValue(" \"" + v + "\" ") == v && CleanValue("\"'" + v + "'\"") == v
    ensures CleanValue("'\"" + v + "\"'") == "\"" + v + "\""
  {
    Wrapped(" ", "\"" + v + "\"", Space);
    Wrapped("\"", v, Double);
    Unwrapped(v, Single);
    Unwrapped("\"'" + v + "'\"", Space);
    Wrapped("\"", "'" + v + "'", Double);
    Wrapped("'", v, Single);
    Unwrapped("'\"" + v + "\"'", Space);
    Unwrapped("'\"" + v + "\"'", Double);
    Wrapped("'", "\"" + v + "\"", Single);
    assert " \"" + v + "\" " == " " + ("\"" + v + "\"") + " ";
    assert "\"'" + v + "'\"" == "\"" + ("'" + v + "'") + "\"";
    assert "'\"" + v + "\"'" == "'" + ("\"" + v + "\"") + "'";
  }

  lemma Unwrapped(v: string, k: Class)
    requires v != "" && !In(v[0], k) && !In(v[|v| - 1], k)
    ensures Strip(v, k) == v
  {
    var i, j := StripPiece(v, k);
  }

  lemma Wrapped(q: string, v: string, k: Class)
    requires |q| == 1 && In(q[0], k) && v != "" && !In(v[0], k) && !In(v[|v| - 1], k)
    ensures Strip(q + v + q, k) == v
  {
    var s := q + v + q;
    assert s[1..] == v + q && (v + q)[0] == v[0];
    assert StripLeft(s, k) == StripLeft(v + q, k) == v + q;
    assert (v + q)[..|v|] == v && (v + q)[|v|] == q[0];
    assert StripRight(v + q, k) == StripRight(v, k) == v;
  }

  /** Lines may end as on any system, and the names of the two keys are these. */
  lemma AnyLineEnd(master: string, confirm: string, end: string)
    requires OneLine(master) && OneLine(confirm) && end in {"\n", "\r", "\r\n"}
    ensures Read("VAULT_MASTER_KEY=" + master + end + "VAULT_CONFIRM_KEY=" + confirm + end)
            == Keys(CleanValue(master), CleanValue(confirm))
  {
    var first, second := "VAULT_MASTER_KEY=" + master, "VAULT_CONFIRM_KEY=" + confirm;
    assert "VAULT_MASTER_KEY=" + master + end + "VAULT_CONFIRM_KEY=" + confirm + end == first + end + second + end;
    assert first == MASTER + "=" + master && second == CONFIRM + "=" + confirm;
    LinesEnded(first, second, end);
    WrittenLine(MASTER, master);
    WrittenLine(CONFIRM, confirm);
    if |end| == 1 {
      ReadThree(first, second);
    } else {
      ReadFive(first, second);
    }
  }

  lemma LinesEnded(first: string, second: string, end: string)
    requires OneLine(first) && OneLine(second) && end in {"\n", "\r", "\r\n"}
    ensures Lines(first + end + second + end)
            == if |end| == 1 then [first, second, ""] else [first, "", second, "", ""]
  {
    var rest := second + end;
    assert first + end + second + end == first + [end[0]] + (end[1..] + rest);
    LinesOf(first, end[1..] + rest, end[0]);
    assert rest == second + [end[0]] + end[1..];
    LinesOf(second, end[1..], end[0]);
    if |end| == 2 {
      assert end[1..] == "\n" && (end[1..] + rest)[1..] == rest && end[1..][1..] == "";
    } else {
      assert end[1..] == "" && end[1..] + rest == rest;
    }
  }

  lemma ReadFive(first: string, second: string)
    ensures ReadLines([first, "", second, "", ""]) == ReadLine(ReadLine(Keys("", ""), first), second)
  {
    var lines := [first, "", second, "", ""];
    assert lines[..4] == [first, "", second, ""] && lines[..4][..3] == [first, "", second];
    assert [first, "", second][..2] == [first, ""] && [first, ""][..1] == [first] && [first][..0] == [];
    assert ReadLines([first]) == ReadLine(Keys("", ""), first);
    assert ReadLines([first, ""]) == ReadLines([first]);
    assert ReadLines([first, "", second]) == ReadLine(ReadLines([first]), second);
  }

  /** The white space that is stripped. */
  lemma WhiteSpace(c: char)
    ensures In(c, Space) <==>
      || c in "\t\n\U{b}\U{c}\r\U{1c}\U{1d}\U{1e}\U{1f} \U{85}\U{a0}\U{1680}"
      || c in "\U{2000}\U{2001}\U{2002}\U{2003}\U{2004}\U{2005}\U{2006}\U{2007}\U{2008}\U{2009}\U{200a}"
      || c in "\U{2028}\U{2029}\U{202f}\U{205f}\U{3000}"
  {
  }
}
