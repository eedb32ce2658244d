/** Command-line text: whitespace fields, normalisation and intent matching. */
module Text {

  /** The white space of Go's unicode.IsSpace. */
  predicate IsSpace(c: char) {
    || '\t' <= c <= '\r'
    || c in {' ', '\U{85}', '\U{A0}', '\U{1680}', '\U{2028}', '\U{2029}', '\U{202F}', '\U{205F}', '\U{3000}'}
    || '\U{2000}' <= c <= '\U{200A}'
  }

  /** A word is what strings.Fields can return: not empty, and free of white space. */
  predicate IsWord(w: string) {
    w != "" && forall i :: 0 <= i < |w| ==> !IsSpace(w[i])
  }

  predicate AllWords(ws: seq<string>) {
    forall i :: 0 <= i < |ws| ==> IsWord(ws[i])
  }

  /** Length of the longest prefix of `s` without white space. */
  function WordLength(s: string): (n: nat)
    ensures n <= |s|
    ensures forall i :: 0 <= i < n ==> !IsSpace(s[i])
    ensures n < |s| ==> IsSpace(s[n])
  {
    if s == "" || IsSpace(s[0]) then 0 else 1 + WordLength(s[1..])
  }

  /** strings.Fields: the maximal runs of non-space characters. */
  function Fields(s: string): (ws: seq<string>)
    ensures AllWords(ws)
    decreases |s|
  {
    if s == "" then []
    else if IsSpace(s[0]) then Fields(s[1..])
    else
      var n := WordLength(s);
      [s[..n]] + Fields(s[n..])
  }

  /** strings.Join with a single space. */
  function Join(ws: seq<string>): string {
    if ws == [] then "" else if |ws| == 1 then ws[0] else ws[0] + " " + Join(ws[1..])
  }

  function Normalize(s: string): string {
    Join(Fields(s))
  }

  lemma {:induction false} WordLengthOfWord(w: string, rest: string)
    requires forall i :: 0 <= i < |w| ==> !IsSpace(w[i])
    requires rest == "" || IsSpace(rest[0])
    ensures WordLength(w + rest) == |w|
  {
    if w == "" {
      assert w + rest == rest;
    } else {
      assert (w + rest)[1..] == w[1..] + rest;
      assert (w + rest)[0] == w[0];
      WordLengthOfWord(w[1..], rest);
    }
  }

  /** A leading word splits off, whatever follows its separator. */
  lemma FieldsOfWordThen(w: string, rest: string)
    requires IsWord(w)
    requires rest == "" || IsSpace(rest[0])
    ensures Fields(w + rest) == [w] + Fields(rest)
  {
    WordLengthOfWord(w, rest);
    assert (w + rest)[0] == w[0];
    assert (w + rest)[..|w|] == w;
    assert (w + rest)[|w|..] == rest;
  }

  /** Split inverts join. */
  lemma {:induction false} FieldsOfJoin(ws: seq<string>)
    requires AllWords(ws)
    ensures Fields(Join(ws)) == ws
  {
    if |ws| == 1 {
      FieldsOfWordThen(ws[0], "");
      assert ws[0] + "" == ws[0];
    } else if |ws| > 1 {
      FieldsOfJoin(ws[1..]);
      JoinSplitsFirst(ws);
    }
  }

  lemma JoinSplitsFirst(ws: seq<string>)
    requires AllWords(ws) && |ws| > 1
    ensures Fields(Join(ws)) == [ws[0]] + Fields(Join(ws[1..]))
  {
    var rest := " " + Join(ws[1..]);
    assert Join(ws) == ws[0] + rest;
    assert rest[1..] == Join(ws[1..]);
    assert Fields(rest) == Fields(rest[1..]);
    FieldsOfWordThen(ws[0], rest);
    hide Fields, Join, IsSpace;
  }

  /**
   * Normalising keeps the fields, and is a canonical form: two strings normalise alike exactly when their fields
   * agree.
   */
  lemma NormalizeIsCanonical(s: string, t: string)
    ensures Fields(Normalize(s)) == Fields(s)
    ensures Normalize(Normalize(s)) == Normalize(s)
    ensures Normalize(s) == Normalize(t) <==> Fields(s) == Fields(t)
  {
    FieldsOfJoin(Fields(s));
    FieldsOfJoin(Fields(t));
  }

  /** The 25 code points that Unicode calls white space. */
  lemma SpacesAre(c: char)
    ensures IsSpace(c) <==>
              c as int in {9, 10, 11, 12, 13, 32, 133, 160, 5760, 8192, 8193, 8194, 8195, 8196, 8197, 8198, 8199, 8200,
                           8201, 8202, 8232, 8233, 8239, 8287, 12288}
  {
  }

  /** The only white space of `s` is single spaces between other characters. */
  predicate Tidy(s: string) {
    forall i :: 0 <= i < |s| && IsSpace(s[i]) ==>
                  s[i] == ' ' && 0 < i < |s| - 1 && !IsSpace(s[i - 1]) && !IsSpace(s[i + 1])
  }

  lemma {:induction false} JoinIsTidy(ws: seq<string>)
    requires AllWords(ws)
    ensures Tidy(Join(ws)) && (ws != [] ==> ws[0] <= Join(ws))
  {
    if |ws| > 1 {
      var rest := Join(ws[1..]);
      JoinIsTidy(ws[1..]);
      assert IsWord(ws[0]) && IsWord(ws[1]);
      assert rest[0] == ws[1][0];
      assert Join(ws) == ws[0] + " " + rest;
    }
  }

  /** Normalising trims the text and leaves one space between two words. */
  lemma NormalizedIsTidy(s: string)
    ensures Tidy(Normalize(s))
  {
    JoinIsTidy(Fields(s));
  }

  /** Only blank text normalises to nothing. */
  lemma NormalizeIsBlank(s: string)
    ensures Normalize(s) == "" <==> Fields(s) == []
  {
    FieldsOfJoin(Fields(s));
  }

  /** Index of the last slash of `s`, or -1. */
  function LastSlash(s: string): (i: int)
    ensures -1 <= i < |s|
    ensures i >= 0 ==> s[i] == '/'
    ensures forall j :: i < j < |s| ==> s[j] != '/'
  {
    if s == "" then -1 else if s[|s| - 1] == '/' then |s| - 1 else LastSlash(s[..|s| - 1])
  }

  function TrimSlashes(s: string): (r: string)
    ensures r <= s
    ensures r == "" || r[|r| - 1] != '/'
  {
    if s != "" && s[|s| - 1] == '/' then TrimSlashes(s[..|s| - 1]) else s
  }

  /** filepath.Base on a Unix host. */
  function Base(path: string): string {
    if path == "" then "."
    else
      var trimmed := TrimSlashes(path);
      if trimmed == "" then "/" else trimmed[LastSlash(trimmed) + 1..]
  }

  predicate IsPythonInterpreter(command: string) {
    var base := Base(command);
    base == "python" || base == "python3" || "python3." <= base
  }

  /** Whether two argument vectors name the same invocation. */
  predicate MatchesArgv(current: seq<string>, intent: seq<string>) {
    && |current| > 0
    && |intent| > 0
    && (|| current == intent
        || (Base(current[0]) == Base(intent[0]) && current[1..] == intent[1..])
        || (&& |current| == |intent| + 1
            && IsPythonInterpreter(current[0])
            && Base(current[1]) == Base(intent[0])
            && current[2..] == intent[1..]))
  }

  predicate MatchesCommandIntent(current: string, intent: string) {
    MatchesArgv(Fields(current), Fields(intent))
  }

  /** Normalising either side never changes whether a command line matches an intent. */
  lemma MatchIgnoresNormalisation(current: string, intent: string)
    ensures MatchesCommandIntent(Normalize(current), intent) == MatchesCommandIntent(current, intent)
    ensures MatchesCommandIntent(current, Normalize(intent)) == MatchesCommandIntent(current, intent)
  {
    NormalizeIsCanonical(current, intent);
    NormalizeIsCanonical(intent, current);
  }

  // ----- what Base computes -----

  predicate AllSlashes(s: string) {
    forall i :: 0 <= i < |s| ==> s[i] == '/'
  }

  /** `name` is the last thing that the path names: only slashes follow it, and a slash precedes it if anything does. */
  ghost predicate EndsIn(path: string, name: string) {
    exists dir, tail :: EndsInAt(path, dir, name, tail)
  }

  predicate EndsInAt(path: string, dir: string, name: string, tail: string) {
    path == dir + name + tail && AllSlashes(tail) && (dir == "" || dir[|dir| - 1] == '/')
  }

  lemma {:induction false} TrimmedSlashes(s: string, tail: string)
    requires AllSlashes(tail) && (s == "" || s[|s| - 1] != '/')
    ensures TrimSlashes(s + tail) == s
  {
    if tail == "" {
      assert s + tail == s;
    } else {
      var short := tail[..|tail| - 1];
      assert (s + tail)[..|s + tail| - 1] == s + short;
      TrimmedSlashes(s, short);
    }
  }

  /** The base name of a path is its last element, whatever directories and trailing slashes surround it. */
  lemma BaseIsLast(path: string, dir: string, name: string, tail: string)
    requires EndsInAt(path, dir, name, tail) && name != "" && '/' !in name
    ensures Base(path) == name
  {
    var trimmed := dir + name;
    assert trimmed[|trimmed| - 1] == name[|name| - 1];
    TrimmedSlashes(trimmed, tail);
    assert forall j :: |dir| <= j < |trimmed| ==> trimmed[j] == name[j - |dir|];
    assert dir != "" ==> trimmed[|dir| - 1] == '/';
    assert LastSlash(trimmed) == |dir| - 1;
    assert trimmed[|dir|..] == name;
    hide LastSlash, TrimSlashes;
  }

  lemma {:induction false} TrimmedTail(s: string)
    ensures TrimSlashes(s) + s[|TrimSlashes(s)|..] == s && AllSlashes(s[|TrimSlashes(s)|..])
  {
    if s != "" && s[|s| - 1] == '/' {
      var short := s[..|s| - 1];
      TrimmedTail(short);
      assert s[|TrimSlashes(s)|..] == short[|TrimSlashes(s)|..] + "/";
    }
  }

  lemma EndHasBase(path: string, name: string)
    requires EndsIn(path, name) && name != "" && '/' !in name
    ensures Base(path) == name
  {
    hide Base;
    var dir, tail :| EndsInAt(path, dir, name, tail);
    BaseIsLast(path, dir, name, tail);
  }

  lemma NamesLast(path: string)
    requires path != ""
    ensures var trimmed := TrimSlashes(path);
            if trimmed == "" then Base(path) == "/" else Base(path) == trimmed[LastSlash(trimmed) + 1..]
  {
  }

  lemma EndsThere(path: string, dir: string, name: string, tail: string)
    requires EndsInAt(path, dir, name, tail)
    ensures EndsIn(path, name)
  {
  }

  lemma BaseEnds(path: string, name: string)
    requires path != "" && name != "" && '/' !in name && Base(path) == name
    ensures EndsIn(path, name)
  {
    var trimmed := TrimSlashes(path);
    TrimmedTail(path);
    NamesLast(path);
    hide Base, TrimSlashes, AllSlashes, LastSlash, EndsIn;
    assert "/"[0] == '/';
    var dir := trimmed[..LastSlash(trimmed) + 1];
    assert trimmed == dir + name;
    EndsThere(path, dir, name, path[|trimmed|..]);
  }

  /** So a path has the base name `name` exactly if it ends in it, however `name` was come by; nothing else does. */
  lemma BaseIsExact(path: string, name: string)
    requires path != "" && name != "" && '/' !in name
    ensures Base(path) == name <==> EndsIn(path, name)
  {
    hide Base, EndsIn;
    if EndsIn(path, name) {
      EndHasBase(path, name);
    }
    if Base(path) == name {
      BaseEnds(path, name);
    }
  }

  /** The two paths without a last element. */
  lemma BaseOfNothing(slashes: string)
    requires AllSlashes(slashes)
    ensures Base(slashes) == if slashes == "" then "." else "/"
  {
    TrimmedSlashes("", slashes);
    assert "" + slashes == slashes;
  }

  /** The names under which a script entry point's interpreter may run. */
  predicate IsPythonName(name: string) {
    name == "python" || name == "python3" || "python3." <= name
  }

  /** A word whose last element is a Python interpreter's name. */
  ghost predicate RunsPython(word: string) {
    exists name :: IsPythonName(name) && '/' !in name && EndsIn(word, name)
  }

  lemma InterpreterIsExact(word: string)
    requires word != ""
    ensures IsPythonInterpreter(word) <==> RunsPython(word)
  {
    if IsPythonInterpreter(word) {
      PartOfBase(word);
      assert "python"[0] == 'p' && "python3"[0] == 'p' && "python3."[0] == 'p';
      BaseIsExact(word, Base(word));
    }
    if RunsPython(word) {
      var name :| IsPythonName(name) && '/' !in name && EndsIn(word, name);
      assert name != "";
      BaseIsExact(word, name);
    }
  }

  /** A base name holds no slash, unless it is the one of a path of slashes. */
  lemma PartOfBase(path: string)
    ensures Base(path) == "/" || '/' !in Base(path)
  {
    var trimmed := TrimSlashes(path);
    assert forall j :: LastSlash(trimmed) < j < |trimmed| ==> trimmed[j] != '/';
  }

  /** The words run the program `name` from any directory, possibly by a Python interpreter, with these arguments. */
  ghost predicate Runs(argv: seq<string>, name: string, args: seq<string>) {
    || (|argv| == |args| + 1 && EndsIn(argv[0], name) && argv[1..] == args)
    || (|argv| == |args| + 2 && RunsPython(argv[0]) && EndsIn(argv[1], name) && argv[2..] == args)
  }

  /** A command line matches an intent exactly if it runs the intent's program with the intent's arguments. */
  lemma MatchIsExact(current: string, intent: string, name: string)
    requires name != "" && '/' !in name
    requires Fields(intent) != [] && EndsIn(Fields(intent)[0], name)
    ensures MatchesCommandIntent(current, intent) <==> Runs(Fields(current), name, Fields(intent)[1..])
  {
    hide Fields, Base, IsPythonInterpreter, EndsIn, RunsPython;
    var c, i := Fields(current), Fields(intent);
    BaseIsExact(i[0], name);
    if |c| > 0 {
      BaseIsExact(c[0], name);
      InterpreterIsExact(c[0]);
    }
    if |c| > 1 {
      BaseIsExact(c[1], name);
    }
  }

  lemma PathEndsIn(dir: string, name: string)
    ensures EndsIn(name, name) && EndsIn(dir + "/" + name, name)
  {
    assert EndsInAt(name, "", name, "");
    assert EndsInAt(dir + "/" + name, dir + "/", name, "");
  }

  /**
   * Every form exec may give a launched command matches the intent it was launched from: the words unchanged, the
   * program resolved to a path in any directory, or that entry point run by a Python interpreter in any directory.
   */
  lemma LaunchedFormsMatch(name: string, args: seq<string>, dir: string, python: string, bin: string)
    requires IsWord(name) && '/' !in name && AllWords(args)
    requires IsWord(dir + "/" + name) && IsWord(bin + "/" + python) && IsWord(python)
    requires python in {"python", "python3"} || ("python3." <= python && '/' !in python)
    ensures var intent := Join([name] + args);
            && MatchesCommandIntent(intent, intent)
            && MatchesCommandIntent(Join([dir + "/" + name] + args), intent)
            && MatchesCommandIntent(Join([python, dir + "/" + name] + args), intent)
            && MatchesCommandIntent(Join([bin + "/" + python, dir + "/" + name] + args), intent)
  {
    hide Fields, Join, IsWord, EndsIn, RunsPython, MatchesCommandIntent;
    PathEndsIn(dir, name);
    PythonRuns(bin, python);
    MatchesJoined(name, args, [name] + args);
    MatchesJoined(name, args, [dir + "/" + name] + args);
    MatchesJoined(name, args, [python, dir + "/" + name] + args);
    MatchesJoined(name, args, [bin + "/" + python, dir + "/" + name] + args);
  }

  lemma PythonRuns(bin: string, python: string)
    requires IsPythonName(python) && '/' !in python
    ensures RunsPython(python) && RunsPython(bin + "/" + python)
  {
    PathEndsIn(bin, python);
  }

  /** The exact condition, for command lines given by their words. */
  lemma MatchesJoined(name: string, args: seq<string>, argv: seq<string>)
    requires IsWord(name) && '/' !in name && AllWords(args) && AllWords(argv)
    ensures MatchesCommandIntent(Join(argv), Join([name] + args)) <==> Runs(argv, name, args)
  {
    hide Fields, Join, EndsIn, RunsPython, MatchesCommandIntent;
    FieldsOfJoin(argv);
    FieldsOfJoin([name] + args);
    assert ([name] + args)[1..] == args;
    PathEndsIn("", name);
    MatchIsExact(Join(argv), Join([name] + args), name);
  }

  /** A blank intent matches nothing, so recovery never adopts a process for a record without a command. */
  lemma BlankIntentMatchesNothing(current: string, intent: string)
    requires Fields(intent) == []
    ensures !MatchesCommandIntent(current, intent)
  {
  }

  /** A match never drops, adds or reorders an argument: the intent's arguments end the live command line. */
  lemma MatchKeepsArguments(current: string, intent: string)
    requires MatchesCommandIntent(current, intent)
    ensures var c, i := Fields(current), Fields(intent);
            |i| <= |c| <= |i| + 1 && c[|c| - |i| + 1..] == i[1..] && Base(c[|c| - |i|]) == Base(i[0])
  {
    hide Fields, Base, IsPythonInterpreter;
  }
}
