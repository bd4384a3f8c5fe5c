/** Parameterised routes: the pattern compiler, the regular expression it builds, and the choice of a view. */
module Routes {
  import opened Wrappers
  import opened Collections

  /** A compiled pattern: literal characters, and groups that match one or more characters other than '/'. */
  datatype Token = Ch(c: char) | Param(name: string)

  predicate IsWord(c: char) {
    'a' <= c <= 'z' || 'A' <= c <= 'Z' || '0' <= c <= '9' || c == '_'
  }

  /** A character that stands for itself in a regular expression; line breaks are left out too. */
  predicate Inert(c: char) {
    c !in ".^$*+?{}[]\\|()" && c != '\n'
  }

  /** The length of the longest run of word characters at the front. */
  function WordRun(s: string): (n: nat)
    ensures n <= |s|
  {
    if s != "" && IsWord(s[0]) then 1 + WordRun(s[1..]) else 0
  }

  /** Every {word} becomes a group, everything else stays. */
  function Compile(pattern: string): seq<Token>
    decreases |pattern|
  {
    if pattern == "" then []
    else
      var n := WordRun(pattern[1..]);
      if pattern[0] == '{' && n > 0 && n + 1 < |pattern| && pattern[n + 1] == '}'
      then [Param(pattern[1..n + 1])] + Compile(pattern[n + 2..])
      else [Ch(pattern[0])] + Compile(pattern[1..])
  }

  function Print(toks: seq<Token>): string {
    if toks == [] then ""
    else (match toks[0] case Ch(c) => [c] case Param(name) => "{" + name + "}") + Print(toks[1..])
  }

  /** The group names, in order. */
  function Names(toks: seq<Token>): seq<string> {
    if toks == [] then []
    else if toks[0].Param? then [toks[0].name] + Names(toks[1..]) else Names(toks[1..])
  }

  // ---------- Matching ----------

  function SegmentRun(s: string): (n: nat)
    ensures n <= |s|
    ensures forall i :: 0 <= i < n ==> s[i] != '/'
    ensures n < |s| ==> s[n] == '/'
  {
    if s != "" && s[0] != '/' then 1 + SegmentRun(s[1..]) else 0
  }

  /** The groups' values, as a backtracking matcher finds them; the end anchor also accepts one final line break. */
  function Match(toks: seq<Token>, s: string): Option<seq<string>>
    decreases |toks|, 0
  {
    if toks == [] then if s == "" || s == "\n" then Some([]) else None
    else match toks[0]
      case Ch(c) => if s != "" && s[0] == c then Match(toks[1..], s[1..]) else None
      case Param(_) => Longest(toks, s, SegmentRun(s))
  }

  /** Tries the group's longest value first, then shorter ones, down to one character. */
  function Longest(toks: seq<Token>, s: string, n: nat): Option<seq<string>>
    requires toks != [] && n <= |s|
    decreases |toks| - 1, n + 1
  {
    if n == 0 then None
    else match Match(toks[1..], s[n..])
      case Some(rest) => Some([s[..n]] + rest)
      case None => Longest(toks, s, n - 1)
  }

  /** The path a pattern and values for its groups describe. */
  function Fill(toks: seq<Token>, values: seq<string>): string
    requires |values| == |Names(toks)|
  {
    if toks == [] then ""
    else if toks[0].Param? then values[0] + Fill(toks[1..], values[1..])
    else [toks[0].c] + Fill(toks[1..], values)
  }

  predicate Good(value: string) {
    value != "" && '/' !in value
  }

  ghost predicate AllGood(values: seq<string>) {
    forall i :: 0 <= i < |values| ==> Good(values[i])
  }

  /** The path is an instance of the pattern, but for one line break at its end perhaps. */
  ghost predicate Instance(toks: seq<Token>, values: seq<string>, s: string) {
    |values| == |Names(toks)| && AllGood(values) && (s == Fill(toks, values) || s == Fill(toks, values) + "\n")
  }

  /** Whatever the pattern, what a match returns fills the pattern to the path. */
  lemma {:induction false} MatchIsInstance(toks: seq<Token>, s: string)
    requires Match(toks, s).Some?
    ensures Instance(toks, Match(toks, s).value, s)
    decreases |toks|, 0
  {
    if toks != [] {
      if toks[0].Param? {
        LongestIsInstance(toks, s, SegmentRun(s));
      } else {
        MatchIsInstance(toks[1..], s[1..]);
      }
    }
  }

  lemma {:induction false} LongestIsInstance(toks: seq<Token>, s: string, n: nat)
    requires toks != [] && toks[0].Param? && n <= SegmentRun(s) && Longest(toks, s, n).Some?
    ensures Instance(toks, Longest(toks, s, n).value, s)
    decreases |toks| - 1, n + 1
  {
    if Match(toks[1..], s[n..]).Some? {
      MatchIsInstance(toks[1..], s[n..]);
      var rest := Match(toks[1..], s[n..]).value;
      assert ([s[..n]] + rest)[1..] == rest;
      assert s == s[..n] + s[n..];
    } else {
      LongestIsInstance(toks, s, n - 1);
    }
  }

  /** Whatever the pattern, an instance of it is matched. */
  lemma {:induction false} InstanceMatches(toks: seq<Token>, values: seq<string>, s: string)
    requires Instance(toks, values, s)
    ensures Match(toks, s).Some?
    decreases |toks|, 0
  {
    if toks != [] {
      if toks[0].Param? {
        var n := |values[0]|;
        assert s[..n] == values[0];
        assert s[n..] == Fill(toks[1..], values[1..]) || s[n..] == Fill(toks[1..], values[1..]) + "\n";
        InstanceMatches(toks[1..], values[1..], s[n..]);
        RunReaches(s, n);
        LongestFinds(toks, s, SegmentRun(s), n);
      } else {
        assert s[1..] == Fill(toks[1..], values) || s[1..] == Fill(toks[1..], values) + "\n";
        InstanceMatches(toks[1..], values, s[1..]);
      }
    }
  }

  lemma {:induction false} RunReaches(s: string, n: nat)
    requires n <= |s| && forall i :: 0 <= i < n ==> s[i] != '/'
    ensures n <= SegmentRun(s)
  {
    if n > 0 {
      RunReaches(s[1..], n - 1);
    }
  }

  lemma {:induction false} LongestFinds(toks: seq<Token>, s: string, n: nat, m: nat)
    requires toks != [] && 0 < m <= n <= |s| && Match(toks[1..], s[m..]).Some?
    ensures Longest(toks, s, n).Some?
    decreases n
  {
    if m < n {
      LongestFinds(toks, s, n - 1, m);
    }
  }

  /** Every group fills a whole segment: it is followed by '/' or by the end. */
  ghost predicate WholeSegments(toks: seq<Token>) {
    && (forall i :: 0 <= i < |toks| - 1 && toks[i].Param? ==> toks[i + 1] == Ch('/'))
    && (forall i :: 0 <= i < |toks| && toks[i].Ch? ==> Inert(toks[i].c))
  }

  /** Filling a pattern and matching the result returns exactly the values. */
  lemma {:induction false} FillThenMatch(toks: seq<Token>, values: seq<string>)
    requires WholeSegments(toks) && |values| == |Names(toks)| && AllGood(values)
    ensures Match(toks, Fill(toks, values)) == Some(values)
    decreases |toks|
  {
    if toks != [] {
      var s := Fill(toks, values);
      if toks[0].Param? {
        var rest := Fill(toks[1..], values[1..]);
        FillThenMatch(toks[1..], values[1..]);
        assert rest == "" || rest[0] == '/';
        SegmentThenRest(values[0], rest);
        assert s[..|values[0]|] == values[0] && s[|values[0]|..] == rest;
        assert [values[0]] + values[1..] == values;
      } else {
        FillThenMatch(toks[1..], values);
        assert s[1..] == Fill(toks[1..], values);
      }
    }
  }

  lemma {:induction false} SegmentThenRest(v: string, rest: string)
    requires '/' !in v && (rest == "" || rest[0] == '/')
    ensures SegmentRun(v + rest) == |v|
  {
    if v != "" {
      assert (v + rest)[1..] == v[1..] + rest;
      SegmentThenRest(v[1..], rest);
    }
  }

  // ---------- Compiling ----------

  predicate IsName(name: string) {
    name != "" && forall i :: 0 <= i < |name| ==> IsWord(name[i])
  }

  lemma {:induction false} WordThenBrace(name: string, rest: string)
    requires forall i :: 0 <= i < |name| ==> IsWord(name[i])
    ensures WordRun(name + "}" + rest) == |name|
  {
    var s := name + "}" + rest;
    if name != "" {
      assert s[1..] == name[1..] + "}" + rest;
      WordThenBrace(name[1..], rest);
    }
  }

  lemma CompileGroup(name: string, rest: string)
    requires IsName(name)
    ensures Compile("{" + name + "}" + rest) == [Param(name)] + Compile(rest)
  {
    var s := "{" + name + "}" + rest;
    assert s[1..] == name + "}" + rest;
    WordThenBrace(name, rest);
    assert s[1..|name| + 1] == name && s[|name| + 2..] == rest;
  }

  lemma CompileLiteral(c: char, rest: string)
    requires c != '{'
    ensures Compile([c] + rest) == [Ch(c)] + Compile(rest)
  {
    assert ([c] + rest)[1..] == rest;
  }

  /** Compiling a printed pattern gives the pattern back. */
  lemma {:induction false} CompileThenPrint(toks: seq<Token>)
    requires forall i :: 0 <= i < |toks| ==> if toks[i].Ch? then Inert(toks[i].c) else IsName(toks[i].name)
    ensures Compile(Print(toks)) == toks
  {
    if toks != [] {
      var rest := Print(toks[1..]);
      CompileThenPrint(toks[1..]);
      if toks[0].Param? {
        CompileGroup(toks[0].name, rest);
      } else {
        CompileLiteral(toks[0].c, rest);
      }
    }
  }

  lemma {:induction false} WordRunIsName(s: string)
    ensures forall i :: 0 <= i < WordRun(s) ==> IsWord(s[i])
  {
    if s != "" && IsWord(s[0]) {
      WordRunIsName(s[1..]);
    }
  }

  lemma PrintOneMore(t: Token, toks: seq<Token>)
    ensures Print([t] + toks) == (match t case Ch(c) => [c] case Param(name) => "{" + name + "}") + Print(toks)
  {
    assert ([t] + toks)[1..] == toks;
  }

  /** The pattern begins with a group, whose name has n characters. */
  predicate AtGroup(s: string, n: nat) {
    && 0 < n < |s| - 1 && s[0] == '{' && s[n + 1] == '}' && WordRun(s[1..]) == n
  }

  lemma CompileChar(s: string)
    requires s != "" && !AtGroup(s, WordRun(s[1..]))
    ensures Compile(s) == [Ch(s[0])] + Compile(s[1..])
  {
  }

  lemma CompileWord(s: string, n: nat)
    requires AtGroup(s, n)
    ensures Compile(s) == [Param(s[1..n + 1])] + Compile(s[n + 2..])
    ensures s == "{" + s[1..n + 1] + "}" + s[n + 2..]
  {
  }

  /** Printing a compiled pattern gives the pattern back, whatever it is. */
  lemma {:induction false} PrintThenCompile(pattern: string)
    ensures Print(Compile(pattern)) == pattern
    decreases |pattern|
  {
    if pattern != "" {
      var n := WordRun(pattern[1..]);
      if AtGroup(pattern, n) {
        CompileWord(pattern, n);
        PrintThenCompile(pattern[n + 2..]);
        PrintOneMore(Param(pattern[1..n + 1]), Compile(pattern[n + 2..]));
      } else {
        CompileChar(pattern);
        PrintThenCompile(pattern[1..]);
        PrintOneMore(Ch(pattern[0]), Compile(pattern[1..]));
      }
    }
  }

  /** The groups of a compiled pattern have proper names. */
  lemma {:induction false} CompiledNames(pattern: string, name: string)
    requires Param(name) in Compile(pattern)
    ensures IsName(name)
    decreases |pattern|
  {
    var n := WordRun(pattern[1..]);
    if pattern[0] == '{' && n > 0 && n + 1 < |pattern| && pattern[n + 1] == '}' {
      if name == pattern[1..n + 1] {
        WordRunIsName(pattern[1..]);
      } else {
        CompiledNames(pattern[n + 2..], name);
      }
    } else {
      CompiledNames(pattern[1..], name);
    }
  }

  lemma GroupAhead(before: string, group: string)
    requires before != "" && group != "" && group[0] == '{'
    ensures WordRun((before + group)[1..]) == WordRun(before[1..])
    ensures AtGroup(before + group, WordRun(before[1..])) <==> AtGroup(before, WordRun(before[1..]))
  {
    assert (before + group)[1..] == before[1..] + group;
    RunStopsAtGroup(before[1..], group);
  }

  /** What is before a brace is compiled by itself. */
  lemma {:induction false} CompileApart(before: string, group: string)
    requires group != "" && group[0] == '{'
    ensures Compile(before + group) == Compile(before) + Compile(group)
    decreases |before|, 1
  {
    if before == "" {
      assert before + group == group;
    } else {
      GroupAhead(before, group);
      CompileApartFrom(before, group, before + group, WordRun(before[1..]));
    }
  }

  lemma {:induction false} CompileApartFrom(before: string, group: string, s: string, n: nat)
    requires group != "" && group[0] == '{' && before != "" && s == before + group
    requires WordRun(s[1..]) == WordRun(before[1..]) == n && (AtGroup(s, n) <==> AtGroup(before, n))
    ensures Compile(s) == Compile(before) + Compile(group)
    decreases |before|, 0
  {
    var len := if AtGroup(before, n) then n + 2 else 1;
    var t := if AtGroup(before, n) then Param(before[1..n + 1]) else Ch(before[0]);
    assert s[len..] == before[len..] + group;
    if AtGroup(before, n) {
      assert s[1..n + 1] == before[1..n + 1];
      CompileWord(before, n);
      CompileWord(s, n);
    } else {
      CompileChar(before);
      CompileChar(s);
    }
    CompileApart(before[len..], group);
    Associative([t], Compile(before[len..]), Compile(group));
  }

  /** Every group of a pattern is found, whatever is before and behind it. */
  lemma GroupsAreFound(before: string, name: string, behind: string)
    requires IsName(name)
    ensures Compile(before + ("{" + name + "}" + behind)) == Compile(before) + [Param(name)] + Compile(behind)
  {
    CompileApart(before, "{" + name + "}" + behind);
    CompileGroup(name, behind);
  }

  lemma {:induction false} RunStopsAtGroup(s: string, group: string)
    requires group != "" && group[0] == '{'
    ensures WordRun(s + group) == WordRun(s)
  {
    if s == "" {
      assert s + group == group;
    } else {
      assert (s + group)[1..] == s[1..] + group;
      RunStopsAtGroup(s[1..], group);
    }
  }

  /** Group names have the code points of letters, digits and the underscore, and no digit comes first. */
  lemma GroupNames(c: char, rest: string)
    ensures IsWord(c) <==>
      var n := c as int; 97 <= n < 97 + 26 || 65 <= n < 65 + 26 || 48 <= n < 48 + 10 || n == 95
    ensures Named([c] + rest) <==> c !in "0123456789"
  {
  }

  /** The groups' names stand in the order of the groups. */
  lemma {:induction false} NamesInOrder(before: seq<Token>, name: string, behind: seq<Token>)
    ensures Names(before + [Param(name)] + behind) == Names(before) + [name] + Names(behind)
  {
    var toks := before + [Param(name)] + behind;
    if before == [] {
      assert toks == [Param(name)] + behind && toks[1..] == behind;
    } else {
      assert toks[1..] == before[1..] + [Param(name)] + behind;
      NamesInOrder(before[1..], name, behind);
    }
  }

  // ---------- The router ----------

  datatype Route = Route(toks: seq<Token>, moduleName: string)

  /** Named values; a later group of the same name would win, but such a pattern is refused. */
  function Bindings(names: seq<string>, values: seq<string>): map<string, string>
    requires |names| == |values|
  {
    if names == [] then map[] else map[names[0] := values[0]] + Bindings(names[1..], values[1..])
  }

  lemma {:induction false} BindingsHoldValues(names: seq<string>, values: seq<string>, i: nat)
    requires |names| == |values| && Distinct(names) && i < |names|
    ensures names[i] in Bindings(names, values) && Bindings(names, values)[names[i]] == values[i]
  {
    if i > 0 {
      BindingsHoldValues(names[1..], values[1..], i - 1);
    } else if names[0] in Bindings(names[1..], values[1..]) {
      BoundNames(names[1..], values[1..], names[0]);
    }
  }

  lemma {:induction false} BoundNames(names: seq<string>, values: seq<string>, name: string)
    requires |names| == |values| && name in Bindings(names, values)
    ensures exists i :: 0 <= i < |names| && names[i] == name
  {
    if names[0] != name {
      BoundNames(names[1..], values[1..], name);
      var i :| 0 <= i < |names[1..]| && names[1..][i] == name;
      assert names[i + 1] == name;
    }
  }

  /** A registered pattern, filled with values, is matched with exactly those values, each under the name of the group
      that it fills. */
  lemma RouteRoundTrip(toks: seq<Token>, values: seq<string>)
    requires WholeSegments(toks) && Distinct(Names(toks)) && |values| == |Names(toks)| && AllGood(values)
    requires forall i :: 0 <= i < |toks| && toks[i].Param? ==> IsName(toks[i].name)
    ensures Match(Compile(Print(toks)), Fill(toks, values)) == Some(values)
    ensures forall i :: 0 <= i < |values| ==>
      Names(toks)[i] in Bindings(Names(toks), values) && Bindings(Names(toks), values)[Names(toks)[i]] == values[i]
    ensures forall i :: 0 <= i < |toks| && toks[i].Param? ==>
      var earlier := |Names(toks[..i])|;
      earlier < |values| && toks[i].name in Bindings(Names(toks), values)
      && Bindings(Names(toks), values)[toks[i].name] == values[earlier]
  {
    CompileThenPrint(toks);
    FillThenMatch(toks, values);
    forall i | 0 <= i < |values| {
      BindingsHoldValues(Names(toks), values, i);
    }
    forall i | 0 <= i < |toks| && toks[i].Param?
      ensures |Names(toks[..i])| < |values| && Names(toks)[|Names(toks[..i])|] == toks[i].name
    {
      NameOfGroup(toks, i);
    }
  }

  lemma NameOfGroup(toks: seq<Token>, i: nat)
    requires i < |toks| && toks[i].Param?
    ensures var earlier := |Names(toks[..i])|; earlier < |Names(toks)| && Names(toks)[earlier] == toks[i].name
  {
    assert toks == toks[..i] + [Param(toks[i].name)] + toks[i + 1..];
    NamesInOrder(toks[..i], toks[i].name, toks[i + 1..]);
  }

  /** What becomes of a view's module: it is loaded, it is not found, or something else raises. */
  datatype Load = Loads | NotFound | Raises

  function LoadOf(modules: map<string, Load>, name: string): Load {
    if name in modules then modules[name] else NotFound
  }

  /** What is shown for a path: a view with its parameters, the fallback view, or the error view. */
  datatype View = Shown(moduleName: string, params: map<string, string>) | NotFoundView | ErrorView

  /** The view when no registered pattern matches. */
  function Fallback(modules: map<string, Load>, conventional: string, notFound: string): View {
    match LoadOf(modules, conventional)
    case Loads => Shown(conventional, map[])
    case NotFound => if LoadOf(modules, notFound).Loads? then NotFoundView else ErrorView
    case Raises => ErrorView
  }

  /** What is shown by convention: the conventional view if its module loads; the not-found view if there is no such
      module and that view loads; otherwise the error view. */
  lemma FallbackShows(modules: map<string, Load>, conventional: string, notFound: string)
    ensures var v := Fallback(modules, conventional, notFound);
      var missing := conventional in modules ==> modules[conventional] == NotFound;
      && (v == Shown(conventional, map[]) <==> conventional in modules && modules[conventional] == Loads)
      && (v == NotFoundView <==> missing && notFound in modules && modules[notFound] == Loads)
      && (v == ErrorView <==> (!missing && modules[conventional] == Raises)
                              || (missing && (notFound !in modules || modules[notFound] != Loads)))
  {
  }

  // ---------- Views by convention ----------

  function StripSlashesLeft(s: string): string {
    if s != "" && s[0] == '/' then StripSlashesLeft(s[1..]) else s
  }

  function StripSlashesRight(s: string): string {
    if s != "" && s[|s| - 1] == '/' then StripSlashesRight(s[..|s| - 1]) else s
  }

  function Dotted(s: string): (r: string)
    ensures |r| == |s|
  {
    if s == "" then "" else [if s[0] == '/' then '.' else s[0]] + Dotted(s[1..])
  }

  /** The module that stands for a path by convention. */
  function Conventional(package: string, path: string): string {
    if path == "" || path == "/" then package + ".home"
    else package + "." + Dotted(StripSlashesRight(StripSlashesLeft(path)))
  }

  function Joined(segments: seq<string>, c: char): string {
    if segments == [] then ""
    else if |segments| == 1 then segments[0]
    else segments[0] + [c] + Joined(segments[1..], c)
  }

  ghost predicate Segments(segments: seq<string>) {
    segments != [] && forall i :: 0 <= i < |segments| ==> segments[i] != "" && '/' !in segments[i]
  }

  lemma {:induction false} DottedConcat(a: string, b: string)
    ensures Dotted(a + b) == Dotted(a) + Dotted(b)
  {
    if a == "" {
      assert a + b == b;
    } else {
      assert (a + b)[1..] == a[1..] + b;
      DottedConcat(a[1..], b);
    }
  }

  lemma {:induction false} DottedSegment(a: string)
    requires '/' !in a
    ensures Dotted(a) == a
  {
    if a != "" {
      DottedSegment(a[1..]);
    }
  }

  lemma {:induction false} DottedJoin(segments: seq<string>)
    requires Segments(segments)
    ensures Dotted(Joined(segments, '/')) == Joined(segments, '.')
    ensures var j := Joined(segments, '/'); j != "" && j[0] != '/' && j[|j| - 1] != '/'
  {
    DottedSegment(segments[0]);
    if |segments| > 1 {
      DottedJoin(segments[1..]);
      DottedConcat(segments[0] + ['/'], Joined(segments[1..], '/'));
      DottedConcat(segments[0], ['/']);
      assert Dotted(['/']) == ['.'] + Dotted([]);
      assert segments[0] + ['/'] + Joined(segments[1..], '/') == Joined(segments, '/');
    }
  }

  function Slashes(n: nat): (r: string)
    ensures |r| == n && forall i :: 0 <= i < n ==> r[i] == '/'
  {
    seq(n, i => '/')
  }

  lemma {:induction false} SlashesStrip(n: nat, s: string)
    requires s == "" || s[0] != '/'
    ensures StripSlashesLeft(Slashes(n) + s) == s
  {
    if n == 0 {
      assert Slashes(n) + s == s;
    } else {
      assert (Slashes(n) + s)[1..] == Slashes(n - 1) + s;
      SlashesStrip(n - 1, s);
    }
  }

  lemma {:induction false} SlashesStripRight(s: string, n: nat)
    requires s != "" && s[|s| - 1] != '/'
    ensures StripSlashesRight(s + Slashes(n)) == s
  {
    if n == 0 {
      assert s + Slashes(n) == s;
    } else {
      assert (s + Slashes(n))[..|s| + n - 1] == s + Slashes(n - 1);
      SlashesStripRight(s, n - 1);
    }
  }

  /** The path of some segments, with any number of slashes before and behind, stands for the module of the same
      segments. */
  lemma ConventionalModule(package: string, segments: seq<string>, before: nat, behind: nat)
    requires Segments(segments)
    ensures Conventional(package, Slashes(before) + Joined(segments, '/') + Slashes(behind))
            == package + "." + Joined(segments, '.')
  {
    var j := Joined(segments, '/');
    DottedJoin(segments);
    assert Slashes(before) + j + Slashes(behind) == Slashes(before) + (j + Slashes(behind));
    SlashesStrip(before, j + Slashes(behind));
    SlashesStripRight(j, behind);
    assert j[0] in Slashes(before) + j + Slashes(behind);
  }

  /** The root, with its slash or without, stands for the home view; more slashes name a module without a name. */
  lemma HomeModule(package: string, n: nat)
    ensures Conventional(package, Slashes(n)) == package + if n <= 1 then ".home" else "."
  {
    SlashesStrip(n, "");
    assert Slashes(n) + "" == Slashes(n);
    assert n == 1 ==> Slashes(n) == "/";
    assert package + "." + "" == package + ".";
  }

  /** A group may not be named by a word that starts with a digit. */
  predicate Named(name: string) { name != "" && !('0' <= name[0] <= '9') }

  class Router {
    const package: string
    var routes: seq<Route>

    constructor (package: string)
      ensures this.package == package && routes == []
    {
      this.package, routes := package, [];
    }

    /** Compiles and appends a pattern; not ok is the exception for a repeated or malformed group name. */
    method Register(pattern: string, moduleName: string) returns (ok: bool)
      modifies this
      ensures var names := Names(Compile(pattern));
        ok <==> Distinct(names) && forall i :: 0 <= i < |names| ==> Named(names[i])
      ensures routes == if ok then old(routes) + [Route(Compile(pattern), moduleName)] else old(routes)
    {
      var names := Names(Compile(pattern));
      for i := 0 to |names|
        invariant Distinct(names[..i]) && forall j :: 0 <= j < i ==> Named(names[j])
      {
        if names[i] in names[..i] || !Named(names[i]) {
          return false;
        }
      }
      assert names[..|names|] == names;
      routes := routes + [Route(Compile(pattern), moduleName)];
      return true;
    }

    /** The first registered pattern that matches decides; a module it names that does not load is an error, while a
        conventional one that is not found falls back to the not-found view. */
    method Resolve(path: string, modules: map<string, Load>) returns (v: View)
      ensures (exists i :: 0 <= i < |routes| && Match(routes[i].toks, path).Some?) ==>
        exists i :: 0 <= i < |routes| && Match(routes[i].toks, path).Some?
          && (forall j :: 0 <= j < i ==> Match(routes[j].toks, path).None?)
          && |Match(routes[i].toks, path).value| == |Names(routes[i].toks)|
          && v == if LoadOf(modules, routes[i].moduleName).Loads?
                  then Shown(routes[i].moduleName, Bindings(Names(routes[i].toks), Match(routes[i].toks, path).value))
                  else ErrorView
      ensures (forall i :: 0 <= i < |routes| ==> Match(routes[i].toks, path).None?) ==>
        v == Fallback(modules, Conventional(package, path), package + ".not_found")
    {
      for i := 0 to |routes|
        invariant forall j :: 0 <= j < i ==> Match(routes[j].toks, path).None?
      {
        var found := Match(routes[i].toks, path);
        if found.Some? {
          MatchIsInstance(routes[i].toks, path);
          if !LoadOf(modules, routes[i].moduleName).Loads? { return ErrorView; }
          return Shown(routes[i].moduleName, Bindings(Names(routes[i].toks), found.value));
        }
      }
      return Fallback(modules, Conventional(package, path), package + ".not_found");
    }
  }
}
