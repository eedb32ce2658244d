/** Deployment IDs: how they are derived from a model reference, which are valid, and what paths they name. */
module Ids {
  import opened Basics
  import opened Text
  import opened Store
  import opened Files
  import opened Planner
  import Suggest

  // ----- deriving an ID -----

  /** What a derived ID may consist of. */
  predicate IsIdChar(c: char) {
    'a' <= c <= 'z' || '0' <= c <= '9' || c in "._-"
  }

  predicate AllIdChars(s: string) {
    forall i :: 0 <= i < |s| ==> IsIdChar(s[i])
  }

  predicate NoIdChars(s: string) {
    forall i :: 0 <= i < |s| ==> !IsIdChar(s[i])
  }

  /** Length of the longest prefix of `s` without such a character. */
  function RunLength(s: string): (n: nat)
    ensures n <= |s| && NoIdChars(s[..n])
    ensures n < |s| ==> IsIdChar(s[n])
  {
    if s == "" || IsIdChar(s[0]) then 0
    else
      var n := RunLength(s[1..]);
      assert s[..n + 1] == [s[0]] + s[1..][..n];
      n + 1
  }

  /** Each maximal run of other characters replaced by one dash. */
  function Sanitized(s: string): (r: string)
    ensures AllIdChars(r)
    decreases |s|
  {
    if s == "" then ""
    else if IsIdChar(s[0]) then [s[0]] + Sanitized(s[1..])
    else "-" + Sanitized(s[RunLength(s)..])
  }

  function TrimIdLeft(s: string): (r: string)
    ensures |r| <= |s| && r == s[|s| - |r|..]
    ensures r != "" ==> r[0] !in "-._"
  {
    if s != "" && s[0] in "-._" then TrimIdLeft(s[1..]) else s
  }

  function TrimIdRight(s: string): (r: string)
    ensures r <= s
    ensures r != "" ==> r[|r| - 1] !in "-._"
  {
    if s != "" && s[|s| - 1] in "-._" then TrimIdRight(s[..|s| - 1]) else s
  }

  /** The name after the slash in lower case, sanitized, trimmed, and cut to 64 characters. */
  function SafeForm(ref: string): string {
    Take(TrimIdRight(TrimIdLeft(Sanitized(ToLower(Suggest.ShortName(ref))))), 64)
  }

  /** deploymentID; `hex` is what it draws at random if the reference leaves no valid ID. */
  function DeploymentId(ref: string, hex: string): string {
    var id := SafeForm(ref);
    if id == "" || !ValidId(id) then "deployment-" + hex else id
  }

  predicate HasTwoDots(s: string) {
    exists i | 0 <= i < |s| - 1 :: s[i] == '.' && s[i + 1] == '.'
  }

  /** What a reference leaves is a valid ID exactly if anything is left, without two dots in a row. */
  lemma SafeFormIsValid(ref: string)
    ensures ValidId(SafeForm(ref)) <==> SafeForm(ref) != "" && !HasTwoDots(SafeForm(ref))
  {
    var all := Sanitized(ToLower(Suggest.ShortName(ref)));
    var left := TrimIdLeft(all);
    var id := SafeForm(ref);
    hide Sanitized, TrimIdLeft, TrimIdRight, ToLower;
    forall i | 0 <= i < |id| ensures IsIdChar(id[i]) {
      assert id[i] == left[i] == all[|all| - |left| + i];
    }
    if id != "" {
      assert id[0] == left[0] && IsIdChar(id[0]);
    }
  }

  /** An ID that some model reference leaves, and that need not be replaced. */
  ghost predicate IsModelId(id: string) {
    id != "" && !HasTwoDots(id) && exists ref :: id == SafeForm(ref)
  }

  lemma ModelIdIsValid(id: string)
    requires IsModelId(id)
    ensures ValidId(id)
  {
    var ref :| id == SafeForm(ref);
    SafeFormIsValid(ref);
  }

  predicate IsHex(s: string) {
    forall i :: 0 <= i < |s| ==> '0' <= s[i] <= '9' || 'a' <= s[i] <= 'f'
  }

  /** Whatever the reference, the derived ID is valid. */
  lemma DerivedIdIsValid(ref: string, hex: string)
    requires |hex| == 8 && IsHex(hex)
    ensures ValidId(DeploymentId(ref, hex))
    ensures DeploymentId(ref, hex) == if IsModelId(SafeForm(ref)) then SafeForm(ref) else "deployment-" + hex
  {
    SafeFormIsValid(ref);
    hide SafeForm;
    var id := "deployment-" + hex;
    assert "deployment-"[0] == 'd';
    forall i | 0 <= i < |id| ensures IsAlphanumeric(id[i]) || id[i] == '-' {
      if i < 11 {
        assert id[i] == "deployment-"[i];
      } else {
        assert id[i] == hex[i - 11];
      }
    }
  }

  // ----- what the derivation does -----

  /** Allowed characters stay as they are, wherever they stand. */
  lemma {:induction false} AllowedStays(word: string, rest: string)
    requires AllIdChars(word)
    ensures Sanitized(word + rest) == word + Sanitized(rest)
  {
    if word == "" {
      assert word + rest == rest;
    } else {
      assert (word + rest)[1..] == word[1..] + rest;
      AllowedStays(word[1..], rest);
    }
  }

  lemma {:induction false} RunIsWhole(run: string, rest: string)
    requires NoIdChars(run) && (rest == "" || IsIdChar(rest[0]))
    ensures RunLength(run + rest) == |run|
  {
    if run == "" {
      assert run + rest == rest;
    } else {
      assert (run + rest)[1..] == run[1..] + rest;
      RunIsWhole(run[1..], rest);
    }
  }

  /** A whole run of other characters becomes one dash. */
  lemma RunBecomesDash(run: string, rest: string)
    requires run != "" && NoIdChars(run) && (rest == "" || IsIdChar(rest[0]))
    ensures Sanitized(run + rest) == "-" + Sanitized(rest)
  {
    RunIsWhole(run, rest);
    assert (run + rest)[0] == run[0];
    assert (run + rest)[|run|..] == rest;
  }

  /** A plain name: at most 64 letters, digits, dots, underscores and dashes, with a letter or digit at both ends. */
  predicate PlainName(name: string) {
    && 1 <= |name| <= 64
    && IsAlphanumeric(name[0]) && IsAlphanumeric(name[|name| - 1])
    && (forall i :: 0 <= i < |name| ==> IsAlphanumeric(name[i]) || name[i] in {'.', '_', '-'})
    && !HasTwoDots(name)
  }

  lemma SanitizedStays(s: string)
    requires AllIdChars(s)
    ensures Sanitized(s) == s
  {
    AllowedStays(s, "");
    assert s + "" == s;
  }

  lemma LowerOfPlain(name: string)
    requires PlainName(name)
    ensures var low := ToLower(name);
            1 <= |low| <= 64 && AllIdChars(low) && low[0] !in "-._" && low[|low| - 1] !in "-._" && !HasTwoDots(low)
  {
    var low := ToLower(name);
    assert forall i :: 0 <= i < |low| ==> (low[i] == '.' <==> name[i] == '.');
  }

  lemma SafeFormOfPlain(org: string, name: string)
    requires '/' !in org && PlainName(name)
    ensures SafeForm(org + "/" + name) == ToLower(name)
  {
    hide Suggest.ShortName, ToLower, PlainName, Sanitized, HasTwoDots, AllIdChars;
    Suggest.NameAfterOrg(org, name);
    LowerOfPlain(name);
    SanitizedStays(ToLower(name));
  }

  /** A model with a plain name is deployed under that name in lower case, a valid ID, whoever publishes it. */
  lemma PlainNameIsId(org: string, name: string, hex: string)
    requires '/' !in org && PlainName(name)
    ensures DeploymentId(org + "/" + name, hex) == ToLower(name) && ValidId(ToLower(name))
  {
    SafeFormOfPlain(org, name);
    SafeFormIsValid(org + "/" + name);
    LowerOfPlain(name);
    hide SafeForm, ValidId, HasTwoDots, ToLower;
  }

  /** A plain name in lower case is what a reference leaves. */
  lemma PlainNameIsModelId(name: string)
    requires PlainName(name)
    ensures IsModelId(ToLower(name))
  {
    SafeFormOfPlain("", name);
    LowerOfPlain(name);
    hide SafeForm, HasTwoDots, ToLower;
  }

  /** The example of the source. */
  lemma IdOfQwen(hex: string)
    ensures DeploymentId("Qwen" + "/" + "Qwen2.5-7B-Instruct", hex) == "qwen2.5-7b-instruct"
    ensures ValidId("qwen2.5-7b-instruct")
  {
    hide DeploymentId, ValidId, ToLower;
    QwenIsPlain();
    PlainNameIsId("Qwen", "Qwen2.5-7B-Instruct", hex);
    QwenInLower();
  }

  lemma QwenIsPlain()
    ensures PlainName("Qwen2.5-7B-Instruct")
  {
  }

  lemma QwenInLower()
    ensures ToLower("Qwen2.5-7B-Instruct") == "qwen2.5-7b-instruct"
  {
  }

  /** Characters that no ID may hold. */
  predicate Foreign(s: string) {
    forall i :: 0 <= i < |s| ==> !IsAlphanumeric(s[i]) && s[i] !in {'.', '_', '-'}
  }

  lemma LowerOfForeign(s: string)
    requires Foreign(s)
    ensures NoIdChars(ToLower(s)) && |ToLower(s)| == |s|
  {
  }

  lemma LowerOfTwo(a: string, b: string)
    ensures ToLower(a + b) == ToLower(a) + ToLower(b)
  {
  }

  lemma SanitizedEnd(s: string, end: string)
    requires AllIdChars(s) && NoIdChars(end)
    ensures Sanitized(s + end) == s + (if end == "" then "" else "-")
  {
    AllowedStays(s, end);
    if end != "" {
      RunBecomesDash(end, "");
      assert end + "" == end;
    }
  }

  /** What is sanitized of two plain names with other characters between and behind them. */
  lemma SanitizedGap(a: string, gap: string, b: string, end: string)
    requires AllIdChars(a) && AllIdChars(b) && a != "" && b != "" && gap != "" && NoIdChars(gap) && NoIdChars(end)
    ensures Sanitized(a + (gap + (b + end))) == a + "-" + b + (if end == "" then "" else "-")
  {
    hide Sanitized;
    SanitizedEnd(b, end);
    assert (b + end)[0] == b[0];
    RunBecomesDash(gap, b + end);
    AllowedStays(a, gap + (b + end));
  }

  lemma TrimmedAlready(s: string, tail: string)
    requires s != "" && s[0] !in "-._" && s[|s| - 1] !in "-._"
    ensures TrimIdLeft(s + tail) == s + tail && TrimIdRight(s) == s
  {
    assert (s + tail)[0] == s[0];
  }

  lemma DashTrimmed(s: string)
    ensures TrimIdRight(s + "-") == TrimIdRight(s)
  {
    assert (s + "-")[..|s|] == s && (s + "-")[|s|] == '-';
  }

  lemma TrimmedGap(s: string, tail: string)
    requires s != "" && s[0] !in "-._" && s[|s| - 1] !in "-._" && tail in {"", "-"}
    ensures TrimIdRight(TrimIdLeft(s + tail)) == s
  {
    hide TrimIdLeft, TrimIdRight;
    TrimmedAlready(s, tail);
    if tail == "" {
      assert s + tail == s;
    } else {
      DashTrimmed(s);
    }
  }

  /** Each run of other characters between two plain names becomes one dash, and none is left behind them. */
  lemma GapBecomesDash(org: string, a: string, gap: string, b: string, end: string)
    requires '/' !in org && PlainName(a) && PlainName(b) && |a| + |b| < 64
    requires gap != "" && Foreign(gap) && Foreign(end)
    ensures SafeForm(org + "/" + (a + (gap + (b + end)))) == ToLower(a) + "-" + ToLower(b)
  {
    hide Sanitized, ToLower, Suggest.ShortName, PlainName, Foreign, TrimIdLeft, TrimIdRight, AllIdChars, NoIdChars,
         HasTwoDots;
    Suggest.NameAfterOrg(org, a + (gap + (b + end)));
    LowerOfTwo(a, gap + (b + end));
    LowerOfTwo(gap, b + end);
    LowerOfTwo(b, end);
    LowerOfPlain(a);
    LowerOfPlain(b);
    LowerOfForeign(gap);
    LowerOfForeign(end);
    SanitizedGap(ToLower(a), ToLower(gap), ToLower(b), ToLower(end));
    TrimmedGap(ToLower(a) + "-" + ToLower(b), if end == "" then "" else "-");
  }

  // ----- which IDs are valid -----

  /** The ASCII codes of digits, capital and small letters. */
  predicate LetterOrDigit(code: int) {
    48 <= code <= 57 || 65 <= code <= 90 || 97 <= code <= 122
  }

  /** One more character makes a valid ID exactly if it is a letter or digit, or an allowed mark after a valid ID. */
  lemma ValidIdGrows(id: string, c: char)
    ensures !ValidId("")
    ensures ValidId(id + [c]) <==>
              if id == "" then LetterOrDigit(c as int)
              else && |id| < 64 && ValidId(id)
                   && (LetterOrDigit(c as int) || c in {'_', '-'} || (c == '.' && id[|id| - 1] != '.'))
  {
    assert IsAlphanumeric(c) <==> LetterOrDigit(c as int);
    var longer := id + [c];
    assert longer[..|id|] == id && longer[|id|] == c;
    assert forall i :: 0 <= i < |id| ==> longer[i] == id[i];
    hide IsAlphanumeric;
  }

  // ----- the paths that an ID names -----

  /** The parts between slashes. */
  function Split(path: string): (parts: seq<string>)
    ensures parts != []
  {
    if path == "" then [""]
    else
      var rest := Split(path[1..]);
      if path[0] == '/' then [""] + rest else [[path[0]] + rest[0]] + rest[1..]
  }

  /** filepath.Clean on a rooted path: empty parts and dots name nothing, two dots the parent; the root has none. */
  function Clean(done: seq<string>, parts: seq<string>): seq<string>
    decreases |parts|
  {
    if parts == [] then done
    else if parts[0] == "" || parts[0] == "." then Clean(done, parts[1..])
    else if parts[0] == ".." then Clean(if done == [] then [] else done[..|done| - 1], parts[1..])
    else Clean(done + [parts[0]], parts[1..])
  }

  /** Each element after a slash. */
  function Render(elements: seq<string>): string {
    if elements == [] then "" else "/" + elements[0] + Render(elements[1..])
  }

  /** filepath.Join below a rooted path. */
  function JoinPath(base: seq<string>, names: seq<string>): seq<string> {
    Clean([], Split(Render(base) + Render(names)))
  }

  function UpFrom(base: seq<string>): seq<string> {
    seq(|base|, _ => "..")
  }

  /** filepath.Rel between rooted paths: up from what they do not share, then down. */
  function Relative(base: seq<string>, path: seq<string>): seq<string> {
    if base != [] && path != [] && base[0] == path[0] then Relative(base[1..], path[1..]) else UpFrom(base) + path
  }

  /** safeChildPath: the joined path, unless the way to it from the base leads up. */
  function SafeChild(base: seq<string>, names: seq<string>): Option<seq<string>> {
    var path := JoinPath(base, names);
    var relative := Relative(base, path);
    if relative != [] && relative[0] == ".." then None else Some(path)
  }

  /** ownedPaths: the log file and the directory of a deployment, below the state directory. */
  function OwnedPaths(base: seq<string>, id: string): Option<seq<seq<string>>> {
    if !ValidId(id) then None
    else
      match (SafeChild(base, ["logs", id + ".log"]), SafeChild(base, ["deployments", id]))
      case (Some(log), Some(dir)) => Some([log, dir])
      case _ => None
  }

  /** One path segment that names itself. */
  predicate IsSegment(s: string) {
    s != "" && s != "." && s != ".." && '/' !in s
  }

  predicate AllSegments(s: seq<string>) {
    forall i :: 0 <= i < |s| ==> IsSegment(s[i])
  }

  /** A valid ID is one segment, and so is the name of its log. */
  lemma ValidIdIsSegment(id: string)
    requires ValidId(id)
    ensures IsSegment(id) && IsSegment(id + ".log")
  {
    assert (id + ".log")[0] == id[0];
    assert forall i :: 0 <= i < |id| ==> (id + ".log")[i] == id[i];
  }

  lemma {:induction false} SplitHead(segment: string, rest: string)
    requires '/' !in segment && (rest == "" || rest[0] == '/')
    ensures Split(segment + rest) == [segment] + Split(rest)[1..]
  {
    if segment == "" {
      assert segment + rest == rest;
      assert Split(rest)[0] == "";
    } else {
      assert (segment + rest)[1..] == segment[1..] + rest;
      SplitHead(segment[1..], rest);
      assert [segment[0]] + segment[1..] == segment;
    }
  }

  lemma SplitSlash(rest: string)
    ensures Split("/" + rest) == [""] + Split(rest)
  {
    assert ("/" + rest)[1..] == rest;
  }

  predicate NoSlashes(s: seq<string>) {
    forall i :: 0 <= i < |s| ==> '/' !in s[i]
  }

  lemma {:induction false} SplitRendered(elements: seq<string>)
    requires NoSlashes(elements)
    ensures Split(Render(elements)) == [""] + elements
  {
    if elements != [] {
      var rest := Render(elements[1..]);
      SplitRendered(elements[1..]);
      assert rest == "" || rest[0] == '/';
      assert Render(elements) == "/" + (elements[0] + rest);
      hide Split, Render;
      SplitHead(elements[0], rest);
      SplitSlash(elements[0] + rest);
    }
  }

  lemma {:induction false} CleanKeeps(done: seq<string>, parts: seq<string>)
    requires AllSegments(parts)
    ensures Clean(done, parts) == done + parts
    decreases |parts|
  {
    if parts != [] {
      CleanKeeps(done + [parts[0]], parts[1..]);
    }
  }

  lemma {:induction false} RenderAppends(a: seq<string>, b: seq<string>)
    ensures Render(a + b) == Render(a) + Render(b)
  {
    if a == [] {
      assert a + b == b;
    } else {
      assert (a + b)[1..] == a[1..] + b;
      RenderAppends(a[1..], b);
    }
  }

  lemma {:induction false} CleanInTwo(done: seq<string>, a: seq<string>, b: seq<string>)
    ensures Clean(done, a + b) == Clean(Clean(done, a), b)
    decreases |a|
  {
    if a == [] {
      assert a + b == b;
    } else {
      assert (a + b)[1..] == a[1..] + b;
      if a[0] == "" || a[0] == "." {
        CleanInTwo(done, a[1..], b);
      } else if a[0] == ".." {
        CleanInTwo(if done == [] then [] else done[..|done| - 1], a[1..], b);
      } else {
        CleanInTwo(done + [a[0]], a[1..], b);
      }
    }
  }

  /** Joining names below a base walks from there, name by name. */
  lemma JoinWalks(base: seq<string>, names: seq<string>)
    requires AllSegments(base) && NoSlashes(names)
    ensures JoinPath(base, names) == Clean(base, names)
  {
    hide Render, Split;
    RenderAppends(base, names);
    SplitRendered(base + names);
    var all := [""] + (base + names);
    assert all[0] == "" && all[1..] == base + names;
    assert Clean([], all) == Clean([], base + names);
    CleanInTwo([], base, names);
    CleanKeeps([], base);
    assert [] + base == base;
  }

  lemma {:induction false} CleanIsProper(done: seq<string>, parts: seq<string>)
    requires ".." !in done
    ensures ".." !in Clean(done, parts)
    decreases |parts|
  {
    if parts != [] {
      if parts[0] == "" || parts[0] == "." {
        CleanIsProper(done, parts[1..]);
      } else if parts[0] == ".." {
        CleanIsProper(if done == [] then [] else done[..|done| - 1], parts[1..]);
      } else {
        CleanIsProper(done + [parts[0]], parts[1..]);
      }
    }
  }

  lemma {:induction false} RelativeIsExact(base: seq<string>, path: seq<string>)
    requires ".." !in base && ".." !in path
    ensures Relative(base, path) != [] && Relative(base, path)[0] == ".." <==> !(base <= path)
  {
    if base != [] && path != [] && base[0] == path[0] {
      RelativeIsExact(base[1..], path[1..]);
      assert base <= path <==> base[1..] <= path[1..];
    }
  }

  /** The check accepts exactly the paths at or below its base, wherever the names lead. */
  lemma ChildIsExact(base: seq<string>, names: seq<string>)
    requires AllSegments(base)
    ensures var path := JoinPath(base, names);
            SafeChild(base, names) == if base <= path then Some(path) else None
  {
    CleanIsProper([], Split(Render(base) + Render(names)));
    assert ".." !in base;
    hide Render, Split, Clean;
    RelativeIsExact(base, JoinPath(base, names));
  }

  /** It refuses a name that leads out, but not one that leads back to the base: so an ID is validated besides. */
  lemma TwoDotsLeadUp(base: seq<string>, name: string)
    requires AllSegments(base) && base != [] && IsSegment(name)
    ensures SafeChild(base, [".."]) == None
    ensures SafeChild(base, [name, ".."]) == Some(base)
    ensures !ValidId("..")
  {
    JoinWalks(base, [".."]);
    JoinWalks(base, [name, ".."]);
    assert Clean(base, [".."]) == base[..|base| - 1];
    assert (base + [name])[..|base|] == base;
    assert Clean(base + [name], [".."]) == base;
    ChildIsExact(base, [".."]);
    ChildIsExact(base, [name, ".."]);
    hide SafeChild, JoinPath;
  }

  /** Joining segments below a base and cleaning the result gives exactly those below the base. */
  lemma SegmentsAreKept(base: seq<string>, names: seq<string>)
    requires AllSegments(base) && AllSegments(names)
    ensures SafeChild(base, names) == Some(base + names)
  {
    JoinWalks(base, names);
    CleanKeeps(base, names);
    ChildIsExact(base, names);
    hide SafeChild, JoinPath, Clean;
    assert base <= base + names;
  }

  /** The paths of a valid ID are exactly its log and its directory, two levels below the state directory. */
  lemma OwnedPathsAreExact(base: seq<string>, id: string)
    requires AllSegments(base) && ValidId(id)
    ensures OwnedPaths(base, id) == Some([base + ["logs", id + ".log"], base + ["deployments", id]])
    ensures SafeChild(base, [id]) == Some(base + [id])
  {
    ValidIdIsSegment(id);
    SegmentsAreKept(base, ["logs", id + ".log"]);
    SegmentsAreKept(base, ["deployments", id]);
    SegmentsAreKept(base, [id]);
    hide SafeChild, ValidId;
  }

  /** A record without a cache directory owns the one that joining its ID below the model cache gives. */
  lemma DefaultCachePath(models: seq<string>, d: Deployment)
    requires AllSegments(models) && ValidId(d.id) && d.cacheDir == None
    ensures SafeChild(models, [d.id]) == Some(CachePath(Path(true, models), d).elements)
    ensures SafeCachePath(CachePath(Path(true, models), d), d.id, d.key) <==> d.key != ""
  {
    OwnedPathsAreExact(models, d.id);
    hide SafeChild, ValidId;
  }

  /** Removing what one valid ID owns never reaches what another owns: no path of one is or holds one of the other. */
  lemma OwnersAreApart(base: seq<string>, id: string, other: string, a: seq<string>, b: seq<string>)
    requires AllSegments(base) && OwnedPaths(base, id).Some? && OwnedPaths(base, other).Some? && id != other
    requires a in OwnedPaths(base, id).value && b in OwnedPaths(base, other).value
    ensures !(a <= b)
  {
    OwnedPathsAreExact(base, id);
    OwnedPathsAreExact(base, other);
    hide OwnedPaths, ValidId;
    assert (id + ".log")[..|id|] == id && (other + ".log")[..|other|] == other;
    assert a[|base|..] != b[|base|..];
  }

  lemma RenderOne(element: string)
    ensures Render([element]) == "/" + element
  {
    assert "/" + element + "" == "/" + element;
  }

  /** The last element of a cleaned path is its base name. */
  lemma LastElementIsBase(elements: seq<string>)
    requires elements != [] && AllSegments(elements)
    ensures Base(Render(elements)) == LastElement(Path(true, elements))
  {
    hide Base, Render;
    var n := |elements| - 1;
    var dir := Render(elements[..n]) + "/";
    RenderAppends(elements[..n], [elements[n]]);
    assert elements[..n] + [elements[n]] == elements;
    RenderOne(elements[n]);
    assert Render(elements) == dir + elements[n] + "";
    BaseIsLast(Render(elements), dir, elements[n], "");
  }
}
