/**
 * The code-review tools: handlers that read the source text under "code"
 * (or the results earlier tools left in the state) and write their findings
 * back into the state under fixed keys.
 *
 * Each tool is given twice: as a function of the state, which is what a
 * registry entry calls and what the lemmas speak about, and as a method that
 * builds its lists with loops, proved to produce exactly what the function
 * gives.  Like the handlers, each returns the very state it was handed,
 * with its keys written into it.
 */
module CodeReview {
  import opened Values
  import opened Registry

  // ---------------------------------------------------------------------
  // Text
  // ---------------------------------------------------------------------

  /** `c.isspace()`: also exactly what `\s` matches in a str pattern. */
  predicate IsSpace(c: char) {
    var n := c as int;
    || n == 0x20 || 0x09 <= n <= 0x0d || 0x1c <= n <= 0x1f || n == 0x85 || n == 0xa0
    || n == 0x1680 || 0x2000 <= n <= 0x200a || n == 0x2028 || n == 0x2029
    || n == 0x202f || n == 0x205f || n == 0x3000
  }

  /** The first index at or after `k` that holds a line break, or `|s|` when there is none. */
  function NewlineAt(s: string, k: nat): (r: nat)
    requires k <= |s|
    ensures k <= r <= |s|
    ensures forall j :: k <= j < r ==> s[j] != '\n'
    ensures r < |s| ==> s[r] == '\n'
    decreases |s| - k
  {
    if k == |s| || s[k] == '\n' then k else NewlineAt(s, k + 1)
  }

  /**
   * `s.splitlines()`, taking '\n' as the only line break: the text between
   * breaks, with no empty last line after a final break.
   */
  function SplitLines(s: string): seq<string>
    decreases |s|
  {
    if s == "" then []
    else
      var i := NewlineAt(s, 0);
      if i == |s| then [s] else [s[..i]] + SplitLines(s[i + 1..])
  }

  /** No line holds a line break. */
  lemma {:induction false} SplitLinesHaveNoBreaks(s: string)
    ensures forall k :: 0 <= k < |SplitLines(s)| ==> '\n' !in SplitLines(s)[k]
    decreases |s|
  {
    if s != "" {
      var i := NewlineAt(s, 0);
      if i < |s| {
        SplitAtBreak(s, i);
        SplitLinesHaveNoBreaks(s[i + 1..]);
        assert forall k :: 1 <= k < |SplitLines(s)| ==> SplitLines(s)[k] == SplitLines(s[i + 1..])[k - 1];
      }
    }
  }

  /** Each line followed by a line break. */
  function Terminated(lines: seq<string>): string {
    if lines == [] then "" else lines[0] + "\n" + Terminated(lines[1..])
  }

  /**
   * Splitting loses nothing but a final line break: putting the lines back
   * together, each followed by a break, gives the text again, with a break
   * added at the end if it had none.
   */
  lemma {:induction false} SplitLinesRoundTrip(s: string)
    ensures Terminated(SplitLines(s)) == if s == "" || s[|s| - 1] == '\n' then s else s + "\n"
    decreases |s|
  {
    if s != "" {
      var i := NewlineAt(s, 0);
      if i == |s| {
        SplitLastLine(s);
      } else {
        var rest := s[i + 1..];
        SplitAtBreak(s, i);
        TerminatedCons(s[..i], SplitLines(rest));
        SplitLinesRoundTrip(rest);
        RejoinLines(s, s[..i], rest, Terminated(SplitLines(rest)));
      }
    }
  }

  /** The first line, a break, and the rest of the text terminated, make the whole text terminated. */
  lemma RejoinLines(s: string, line: string, rest: string, tail: string)
    requires s == line + "\n" + rest
    requires tail == if rest == "" || rest[|rest| - 1] == '\n' then rest else rest + "\n"
    ensures line + "\n" + tail == if s[|s| - 1] == '\n' then s else s + "\n"
  {
    if rest == "" {
      assert s == line + "\n";
    } else if rest[|rest| - 1] != '\n' {
      assert s[|s| - 1] == rest[|rest| - 1];
      assert line + "\n" + (rest + "\n") == (line + "\n" + rest) + "\n";
    }
  }

  /** A text with no line break is one line, and does not end in a break. */
  lemma SplitLastLine(s: string)
    requires s != "" && NewlineAt(s, 0) == |s|
    ensures Terminated(SplitLines(s)) == s + "\n" && s[|s| - 1] != '\n'
  {
    assert SplitLines(s) == [s];
    assert Terminated([s]) == s + "\n" + Terminated([]);
  }

  /** At the first break, the text is the first line, the break, and the rest. */
  lemma SplitAtBreak(s: string, i: nat)
    requires s != "" && i == NewlineAt(s, 0) && i < |s|
    ensures s == s[..i] + "\n" + s[i + 1..]
    ensures SplitLines(s) == [s[..i]] + SplitLines(s[i + 1..])
  {
    Rejoin(s, i);
  }

  lemma Rejoin(s: string, i: nat)
    requires i < |s|
    ensures s == s[..i] + [s[i]] + s[i + 1..]
  {
    assert forall j :: 0 <= j < |s| ==> s[j] == (s[..i] + [s[i]] + s[i + 1..])[j];
  }

  /** The prefix one longer is the prefix and the next element. */
  lemma PrefixSnoc<T>(s: seq<T>, i: nat)
    requires i < |s|
    ensures s[..i + 1] == s[..i] + [s[i]]
  {
  }

  lemma TerminatedCons(line: string, lines: seq<string>)
    ensures Terminated([line] + lines) == line + "\n" + Terminated(lines)
  {
    assert ([line] + lines)[1..] == lines;
  }

  /** A text that starts with a line and a break splits into that line, then the lines of the rest. */
  lemma SplitAtLine(line: string, rest: string)
    requires '\n' !in line
    ensures SplitLines(line + "\n" + rest) == [line] + SplitLines(rest)
  {
    var s := line + "\n" + rest;
    assert s[|line|] == '\n';
    assert forall j :: 0 <= j < |line| ==> s[j] == line[j] && line[j] in line;
    assert NewlineAt(s, 0) == |line|;
    assert s[..|line|] == line;
    assert s[|line| + 1..] == rest;
  }

  /** And splitting the break-terminated lines gives back exactly those lines. */
  lemma {:induction false} SplitTerminated(lines: seq<string>)
    requires forall i :: 0 <= i < |lines| ==> '\n' !in lines[i]
    ensures SplitLines(Terminated(lines)) == lines
  {
    if lines != [] {
      SplitAtLine(lines[0], Terminated(lines[1..]));
      SplitTerminated(lines[1..]);
      assert lines == [lines[0]] + lines[1..];
    }
  }

  /** The first index at or after `k` holding a non-space character, or `|s|`. */
  function SkipSpaces(s: string, k: nat): (r: nat)
    requires k <= |s|
    ensures k <= r <= |s|
    ensures forall j :: k <= j < r ==> IsSpace(s[j])
    ensures r < |s| ==> !IsSpace(s[r])
    decreases |s| - k
  {
    if k == |s| || !IsSpace(s[k]) then k else SkipSpaces(s, k + 1)
  }

  /** The end of the text before `k` once trailing spaces are dropped. */
  function ContentEnd(s: string, k: nat): (r: nat)
    requires k <= |s|
    ensures r <= k
    ensures forall j :: r <= j < k ==> IsSpace(s[j])
    ensures r > 0 ==> !IsSpace(s[r - 1])
    decreases k
  {
    if k == 0 || !IsSpace(s[k - 1]) then k else ContentEnd(s, k - 1)
  }

  /** Everything of `s` outside the slice `s[a..b]` is whitespace. */
  predicate SpacesOutside(s: string, a: nat, b: nat)
    requires a <= b <= |s|
  {
    && (forall j :: 0 <= j < a ==> IsSpace(s[j]))
    && (forall j :: b <= j < |s| ==> IsSpace(s[j]))
  }

  /**
   * `s.strip()`: the text without its leading and trailing whitespace.  It
   * is empty exactly when the text is all whitespace, and otherwise starts
   * and ends with a non-space character.
   */
  function Strip(s: string): (r: string)
    ensures r == "" <==> forall j :: 0 <= j < |s| ==> IsSpace(s[j])
    ensures r != "" ==> !IsSpace(r[0]) && !IsSpace(r[|r| - 1])
    ensures |r| <= |s|
  {
    var a := SkipSpaces(s, 0);
    var b := ContentEnd(s, |s|);
    if a < b then s[a..b] else ""
  }

  /**
   * What `strip` keeps is a slice of the text with only whitespace around
   * it; with the ends `Strip` guarantees, that slice is the largest one.
   */
  lemma StripIsTrimmedSlice(s: string)
    ensures exists a: nat, b: nat :: a <= b <= |s| && Strip(s) == s[a..b] && SpacesOutside(s, a, b)
  {
    var a := SkipSpaces(s, 0);
    var b := ContentEnd(s, |s|);
    if a < b {
      assert SpacesOutside(s, a, b);
    } else {
      assert SpacesOutside(s, |s|, |s|) && s[|s|..|s|] == "";
    }
  }

  /** `s.startswith(prefix)` */
  predicate StartsWith(s: string, prefix: string) {
    prefix <= s
  }

  /** `sub in s` for two strings. */
  predicate Contains(s: string, sub: string)
    decreases |s|
  {
    if sub <= s then true else if s == "" then false else Contains(s[1..], sub)
  }

  /** `sub` occurs in `s` at position `i`. */
  predicate OccursAt(s: string, sub: string, i: int) {
    0 <= i && i + |sub| <= |s| && s[i..i + |sub|] == sub
  }

  /** An occurrence past the first character is an occurrence in the rest of the text. */
  lemma OccursInTail(s: string, sub: string, i: int)
    requires s != "" && 1 <= i
    ensures OccursAt(s, sub, i) <==> OccursAt(s[1..], sub, i - 1)
  {
    if i + |sub| <= |s| {
      var shifted := s[1..][i - 1..i - 1 + |sub|];
      var window := s[i..i + |sub|];
      assert |shifted| == |window|;
      assert forall k :: 0 <= k < |sub| ==> shifted[k] == window[k];
      assert shifted == window;
    }
  }

  /** `sub in s` holds exactly when `sub` occurs in `s` at some position. */
  lemma {:induction false} ContainsOccurs(s: string, sub: string)
    ensures Contains(s, sub) <==> exists i :: OccursAt(s, sub, i)
    decreases |s|
  {
    if sub <= s {
      assert OccursAt(s, sub, 0);
    } else if s != "" {
      ContainsOccurs(s[1..], sub);
      if exists i :: OccursAt(s, sub, i) {
        var i :| OccursAt(s, sub, i);
        assert i != 0;
        OccursInTail(s, sub, i);
      }
      if exists i :: OccursAt(s[1..], sub, i) {
        var i :| OccursAt(s[1..], sub, i);
        OccursInTail(s, sub, i + 1);
      }
    }
  }

  // ---------------------------------------------------------------------
  // The pattern `def\s+([a-zA-Z_][a-zA-Z0-9_]*)\s*\(`
  // ---------------------------------------------------------------------

  predicate IsIdentStart(c: char) {
    'a' <= c <= 'z' || 'A' <= c <= 'Z' || c == '_'
  }

  predicate IsIdentChar(c: char) {
    IsIdentStart(c) || '0' <= c <= '9'
  }

  /** A name the group `[a-zA-Z_][a-zA-Z0-9_]*` matches. */
  predicate IsIdentifier(name: string) {
    |name| > 0 && IsIdentStart(name[0]) && forall j :: 0 <= j < |name| ==> IsIdentChar(name[j])
  }

  /** The first index at or after `k` that is not an identifier character, or `|s|`. */
  function IdentEnd(s: string, k: nat): (r: nat)
    requires k <= |s|
    ensures k <= r <= |s|
    ensures forall j :: k <= j < r ==> IsIdentChar(s[j])
    ensures r < |s| ==> !IsIdentChar(s[r])
    decreases |s| - k
  {
    if k == |s| || !IsIdentChar(s[k]) then k else IdentEnd(s, k + 1)
  }

  /**
   * `re.match` of the pattern against `line`, giving the captured name.  The
   * pattern cannot backtrack into a different match: the name runs up to the
   * first character that is neither a letter, a digit nor `_`.
   */
  function MatchDef(line: string): (r: Option<string>)
    ensures r.Some? ==> IsIdentifier(r.value)
  {
    if !StartsWith(line, "def") then None
    else
      var a := SkipSpaces(line, 3);
      if a == 3 || a == |line| || !IsIdentStart(line[a]) then None
      else
        var b := IdentEnd(line, a + 1);
        var c := SkipSpaces(line, b);
        if c < |line| && line[c] == '(' then Some(line[a..b]) else None
  }

  /**
   * `line` reads "def", whitespace up to `a`, the identifier `name`,
   * optional whitespace up to `c`, then "(" at `c`.
   */
  predicate DefHeader(line: string, name: string, a: nat, c: nat) {
    && 3 < a && a + |name| <= c < |line|
    && StartsWith(line, "def")
    && (forall j :: 3 <= j < a ==> IsSpace(line[j]))
    && line[a..a + |name|] == name && IsIdentifier(name)
    && (forall j :: a + |name| <= j < c ==> IsSpace(line[j]))
    && line[c] == '('
  }

  /** What the matcher finds has that shape. */
  lemma MatchDefHasShape(line: string)
    requires MatchDef(line).Some?
    ensures DefHeader(line, MatchDef(line).value, SkipSpaces(line, 3), SkipSpaces(line, IdentEnd(line, SkipSpaces(line, 3) + 1)))
  {
  }

  /** A line of that shape is matched, and its name is the one found. */
  lemma ShapeIsMatched(line: string, name: string, a: nat, c: nat)
    requires DefHeader(line, name, a, c)
    ensures MatchDef(line) == Some(name)
  {
    var e := a + |name|;
    assert line[a] == name[0];
    assert SkipSpaces(line, 3) == a;
    forall j | a + 1 <= j < e
      ensures IsIdentChar(line[j])
    {
      assert line[j] == name[j - a];
    }
    assert !IsIdentChar(line[e]) by {
      if e < c {
        assert IsSpace(line[e]);
      }
    }
    assert IdentEnd(line, a + 1) == e;
    assert SkipSpaces(line, e) == c;
  }

  /** The matcher finds `name` exactly when the line has that shape. */
  lemma MatchDefExactly(line: string, name: string)
    ensures MatchDef(line) == Some(name) <==> exists a: nat, c: nat :: DefHeader(line, name, a, c)
  {
    if MatchDef(line) == Some(name) {
      MatchDefHasShape(line);
    }
    if exists a: nat, c: nat :: DefHeader(line, name, a, c) {
      var a: nat, c: nat :| DefHeader(line, name, a, c);
      ShapeIsMatched(line, name, a, c);
    }
  }

  /** The name a source line declares: its stripped text starts with "def " and matches the pattern. */
  function DefName(line: string): (r: Option<string>)
    ensures r.Some? ==> StartsWith(Strip(line), "def ") && IsIdentifier(r.value)
  {
    var stripped := Strip(line);
    if StartsWith(stripped, "def ") then MatchDef(stripped) else None
  }

  /** The names the lines declare, in the order of the lines. */
  function FunctionNames(lines: seq<string>): (names: seq<string>)
    ensures |names| <= |lines|
    ensures forall k :: 0 <= k < |names| ==> IsIdentifier(names[k])
  {
    if lines == [] then []
    else
      var init := FunctionNames(lines[..|lines| - 1]);
      match DefName(lines[|lines| - 1])
      case Some(name) => init + [name]
      case None => init
  }

  /** One more line adds the name it declares, if any, at the end. */
  lemma FunctionNamesSnoc(lines: seq<string>, line: string)
    ensures FunctionNames(lines + [line]) ==
            FunctionNames(lines) + (if DefName(line).Some? then [DefName(line).value] else [])
  {
    assert (lines + [line])[..|lines|] == lines;
  }

  /** Names are found line by line: the names of two blocks of lines are those of the first, then those of the second. */
  lemma {:induction false} FunctionNamesAppend(xs: seq<string>, ys: seq<string>)
    ensures FunctionNames(xs + ys) == FunctionNames(xs) + FunctionNames(ys)
    decreases |ys|
  {
    if ys != [] {
      var init, last := ys[..|ys| - 1], ys[|ys| - 1];
      assert ys == init + [last];
      assert xs + ys == (xs + init) + [last];
      FunctionNamesSnoc(xs + init, last);
      FunctionNamesSnoc(init, last);
      FunctionNamesAppend(xs, init);
    } else {
      assert xs + ys == xs;
    }
  }

  /** What each line declares, line by line. */
  function Declarations(lines: seq<string>): (found: seq<Option<string>>)
    ensures |found| == |lines|
    ensures forall i :: 0 <= i < |lines| ==> found[i] == DefName(lines[i])
  {
    seq(|lines|, i requires 0 <= i < |lines| => DefName(lines[i]))
  }

  /** The names held by the `Some` entries, in order. */
  function Present(found: seq<Option<string>>): seq<string> {
    if found == [] then []
    else
      var init := Present(found[..|found| - 1]);
      match found[|found| - 1]
      case Some(name) => init + [name]
      case None => init
  }

  lemma {:induction false} PresentMembership(found: seq<Option<string>>, name: string)
    ensures name in Present(found) <==> Some(name) in found
  {
    if found != [] {
      var init := found[..|found| - 1];
      PresentMembership(init, name);
      assert found == init + [found[|found| - 1]];
    }
  }

  /** The names are those of the lines that declare one. */
  lemma {:induction false} FunctionNamesArePresent(lines: seq<string>)
    ensures FunctionNames(lines) == Present(Declarations(lines))
  {
    if lines != [] {
      var init := lines[..|lines| - 1];
      FunctionNamesArePresent(init);
      var found := Declarations(lines);
      assert found[..|lines| - 1] == Declarations(init);
      assert found[|lines| - 1] == DefName(lines[|lines| - 1]);
    }
  }

  /** A name is listed exactly when some line declares it. */
  lemma FunctionNamesMembership(lines: seq<string>, name: string)
    ensures name in FunctionNames(lines) <==> Some(name) in Declarations(lines)
  {
    FunctionNamesArePresent(lines);
    PresentMembership(Declarations(lines), name);
  }

  // ---------------------------------------------------------------------
  // Reading the state
  // ---------------------------------------------------------------------

  /** `state.get("code", "").splitlines()`; anything but a str there raises AttributeError. */
  function CodeLines(state: State): (r: Result<seq<string>>)
    ensures "code" !in state ==> r == Ok([])
    ensures "code" in state && state["code"].Str? ==> r == Ok(SplitLines(state["code"].s))
    ensures r.Ok? <==> "code" !in state || state["code"].Str?
    ensures r.Err? ==> r.error.AttributeError?
  {
    match Get(state, "code", Str(""))
    case Str(code) => Ok(SplitLines(code))
    case other => Err(AttributeError("'" + TypeName(other) + "' object has no attribute 'splitlines'"))
  }

  /** A Python list of str. */
  function StrList(xs: seq<string>): (v: Value)
    ensures v.List? && |v.items| == |xs|
    ensures forall k :: 0 <= k < |xs| ==> v.items[k] == Str(xs[k])
  {
    List(seq(|xs|, k requires 0 <= k < |xs| => Str(xs[k])))
  }

  /** `after` differs from `before` at most under `keys`. */
  ghost predicate OnlyWrites(before: State, after: State, keys: set<string>) {
    forall k :: k !in keys ==> (k in before <==> k in after) && (k in before ==> before[k] == after[k])
  }

  // ---------------------------------------------------------------------
  // extract_functions
  // ---------------------------------------------------------------------

  /** `extract_functions`: writes the declared names under "functions" and their number under "function_count". */
  function ExtractFunctions(state: State, config: State): ToolOutcome {
    match CodeLines(state)
    case Err(e) => Raised(state, e.Text())
    case Ok(lines) =>
      var names := FunctionNames(lines);
      var updated := state["functions" := StrList(names)]["function_count" := Int(|names|)];
      Returned(updated, Some(updated))
  }

  method ExtractFunctionsTool(state: State, config: State) returns (outcome: ToolOutcome)
    ensures outcome == ExtractFunctions(state, config)
  {
    var code := Get(state, "code", Str(""));
    if !code.Str? {
      return Raised(state, AttributeError("'" + TypeName(code) + "' object has no attribute 'splitlines'").Text());
    }
    var lines := SplitLines(code.s);
    var names: seq<string> := [];
    for i := 0 to |lines|
      invariant names == FunctionNames(lines[..i])
    {
      PrefixSnoc(lines, i);
      FunctionNamesSnoc(lines[..i], lines[i]);
      var line := Strip(lines[i]);
      if StartsWith(line, "def ") {
        var found := MatchDef(line);
        if found.Some? {
          names := names + [found.value];
        }
      }
    }
    assert lines[..|lines|] == lines;
    var updated := state["functions" := StrList(names)];
    updated := updated["function_count" := Int(|names|)];
    outcome := Returned(updated, Some(updated));
  }

  /**
   * extract_functions raises only when "code" holds something other than a
   * str, and then writes nothing.  Otherwise it lists, in line order, the
   * names of the lines that declare one, counts them, and touches no other
   * key; with no "code" at all the list is empty.
   */
  lemma ExtractFunctionsContract(state: State, config: State)
    ensures var out := ExtractFunctions(state, config);
            && (out.Raised? <==> "code" in state && !state["code"].Str?)
            && (out.Raised? ==> out.mutated == state)
            && (out.Returned? ==>
                  var s := out.mutated;
                  var names := FunctionNames(CodeLines(state).value);
                  && out.result == Some(s)
                  && OnlyWrites(state, s, {"functions", "function_count"})
                  && s["functions"] == StrList(names)
                  && s["function_count"] == Int(|s["functions"].items|)
                  && (forall k :: 0 <= k < |names| ==> IsIdentifier(names[k]))
                  && ("code" !in state ==> s["functions"] == List([]) && s["function_count"] == Int(0)))
  {
  }

  // ---------------------------------------------------------------------
  // check_complexity
  // ---------------------------------------------------------------------

  /** `[ln for ln in lines if ln.strip()]` */
  function NonBlankLines(lines: seq<string>): (r: seq<string>)
    ensures |r| <= |lines|
  {
    if lines == [] then []
    else
      var init := NonBlankLines(lines[..|lines| - 1]);
      if Strip(lines[|lines| - 1]) != "" then init + [lines[|lines| - 1]] else init
  }

  /** The line holds a non-space character. */
  predicate HasContent(line: string) {
    exists j :: 0 <= j < |line| && !IsSpace(line[j])
  }

  lemma StrippedIsEmpty(line: string)
    ensures Strip(line) != "" <==> HasContent(line)
  {
  }

  /** A line is kept exactly when it holds a non-space character. */
  lemma {:induction false} NonBlankLinesMembership(lines: seq<string>, line: string)
    ensures line in NonBlankLines(lines) <==> line in lines && HasContent(line)
    decreases |lines|
  {
    if lines != [] {
      var init, last := lines[..|lines| - 1], lines[|lines| - 1];
      NonBlankLinesMembership(init, line);
      assert lines == init + [last];
      StrippedIsEmpty(line);
      StrippedIsEmpty(last);
      if Strip(last) != "" {
        assert NonBlankLines(lines) == NonBlankLines(init) + [last];
      } else {
        assert NonBlankLines(lines) == NonBlankLines(init);
      }
    }
  }

  /** One more line is kept, at the end, exactly when it has content. */
  lemma NonBlankLinesSnoc(lines: seq<string>, line: string)
    ensures NonBlankLines(lines + [line]) == NonBlankLines(lines) + (if HasContent(line) then [line] else [])
  {
    assert (lines + [line])[..|lines|] == lines;
    StrippedIsEmpty(line);
  }

  /**
   * The filter works line by line: the kept lines of two blocks are those
   * of the first, then those of the second.  With `NonBlankLinesSnoc` this
   * fixes the result completely -- every non-blank line, repeats included,
   * in its original order.
   */
  lemma {:induction false} NonBlankLinesAppend(xs: seq<string>, ys: seq<string>)
    ensures NonBlankLines(xs + ys) == NonBlankLines(xs) + NonBlankLines(ys)
    decreases |ys|
  {
    if ys == [] {
      assert xs + ys == xs;
    } else {
      var init, last := ys[..|ys| - 1], ys[|ys| - 1];
      var kept := if HasContent(last) then [last] else [];
      assert ys == init + [last];
      assert xs + ys == (xs + init) + [last];
      calc {
        NonBlankLines(xs + ys);
        == { NonBlankLinesSnoc(xs + init, last); }
        NonBlankLines(xs + init) + kept;
        == { NonBlankLinesAppend(xs, init); }
        (NonBlankLines(xs) + NonBlankLines(init)) + kept;
        == { NonBlankLinesSnoc(init, last); }
        NonBlankLines(xs) + NonBlankLines(ys);
      }
    }
  }

  /** The positions of the lines that hold a non-space character. */
  function ContentPositions(lines: seq<string>): set<int> {
    set i | 0 <= i < |lines| && HasContent(lines[i])
  }

  /** The number of kept lines is the number of positions holding a non-blank line. */
  lemma {:induction false} NonBlankLinesCount(lines: seq<string>)
    ensures |NonBlankLines(lines)| == |ContentPositions(lines)|
    decreases |lines|
  {
    if lines == [] {
      assert ContentPositions(lines) == {};
    } else {
      var n := |lines| - 1;
      var init := lines[..n];
      assert lines == init + [lines[n]];
      NonBlankLinesSnoc(init, lines[n]);
      NonBlankLinesCount(init);
      ContentPositionsSnoc(init, lines[n]);
    }
  }

  /** One more line adds its own position exactly when it has content. */
  lemma ContentPositionsSnoc(lines: seq<string>, line: string)
    ensures ContentPositions(lines + [line]) ==
              ContentPositions(lines) + (if HasContent(line) then {|lines|} else {})
    ensures |lines| !in ContentPositions(lines)
  {
    var extended := lines + [line];
    var added: set<int> := if HasContent(line) then {|lines|} else {};
    forall i
      ensures i in ContentPositions(extended) <==> i in ContentPositions(lines) + added
    {
      if 0 <= i < |lines| {
        assert extended[i] == lines[i];
      } else if i == |lines| {
        assert extended[i] == line;
      }
    }
  }

  /** `check_complexity`: writes the number of non-blank lines under "complexity_score". */
  function CheckComplexity(state: State, config: State): ToolOutcome {
    match CodeLines(state)
    case Err(e) => Raised(state, e.Text())
    case Ok(lines) =>
      var updated := state["complexity_score" := Int(|NonBlankLines(lines)|)];
      Returned(updated, Some(updated))
  }

  /** The comprehension `[ln for ln in lines if ln.strip()]`, as a loop. */
  method CollectNonBlankLines(lines: seq<string>) returns (nonBlank: seq<string>)
    ensures nonBlank == NonBlankLines(lines)
  {
    nonBlank := [];
    for i := 0 to |lines|
      invariant nonBlank == NonBlankLines(lines[..i])
    {
      assert lines[..i + 1][..i] == lines[..i];
      if Strip(lines[i]) != "" {
        nonBlank := nonBlank + [lines[i]];
      }
    }
    assert lines[..|lines|] == lines;
  }

  method CheckComplexityTool(state: State, config: State) returns (outcome: ToolOutcome)
    ensures outcome == CheckComplexity(state, config)
  {
    var code := Get(state, "code", Str(""));
    if !code.Str? {
      return Raised(state, AttributeError("'" + TypeName(code) + "' object has no attribute 'splitlines'").Text());
    }
    var lines := SplitLines(code.s);
    var nonBlank := CollectNonBlankLines(lines);
    var updated := state["complexity_score" := Int(|nonBlank|)];
    outcome := Returned(updated, Some(updated));
  }

  /**
   * check_complexity raises only when "code" holds something other than a
   * str.  Otherwise it writes only "complexity_score": the number of lines
   * holding a non-space character, at most the number of lines, and 0 when
   * there is no "code".
   */
  lemma CheckComplexityContract(state: State, config: State)
    ensures var out := CheckComplexity(state, config);
            && (out.Raised? <==> "code" in state && !state["code"].Str?)
            && (out.Raised? ==> out.mutated == state)
            && (out.Returned? ==>
                  var s := out.mutated;
                  var lines := CodeLines(state).value;
                  && out.result == Some(s)
                  && OnlyWrites(state, s, {"complexity_score"})
                  && s["complexity_score"] == Int(|NonBlankLines(lines)|)
                  && 0 <= s["complexity_score"].i <= |lines|
                  && ("code" !in state ==> s["complexity_score"] == Int(0)))
  {
  }

  // ---------------------------------------------------------------------
  // detect_issues
  // ---------------------------------------------------------------------

  // The issue texts, built around the phrases suggest_improvements looks for in them.
  const NoFunctionsPhrase: string := "No functions"
  const SplittingPhrase: string := "long; consider splitting"
  const WidthPhrase: string := "80 characters"
  const NoFunctionsIssue: string := NoFunctionsPhrase + " defined; consider modularizing the code."
  const LongFileIssue: string := "File is " + SplittingPhrase + " into smaller modules."
  const LongLinesIssue: string := "Some lines exceed " + WidthPhrase + "; consider reformatting."

  /** `[ln for ln in lines if len(ln) > 80]` */
  function LongLines(lines: seq<string>): (r: seq<string>)
    ensures |r| <= |lines|
    ensures |r| > 0 <==> exists i :: 0 <= i < |lines| && |lines[i]| > 80
  {
    if lines == [] then []
    else
      var init := LongLines(lines[..|lines| - 1]);
      assert forall i :: 0 <= i < |lines| - 1 ==> lines[..|lines| - 1][i] == lines[i];
      if |lines[|lines| - 1]| > 80 then init + [lines[|lines| - 1]] else init
  }

  /** The issues found, in their fixed order. */
  function Issues(noFunctions: bool, longFile: bool, longLines: bool): seq<string> {
    (if noFunctions then [NoFunctionsIssue] else [])
    + (if longFile then [LongFileIssue] else [])
    + (if longLines then [LongLinesIssue] else [])
  }

  /** Where each issue stands in the fixed order. */
  function IssueRank(issue: string): int {
    if issue == NoFunctionsIssue then 0
    else if issue == LongFileIssue then 1
    else if issue == LongLinesIssue then 2
    else 3
  }

  /**
   * Each issue is listed exactly when its condition holds, at most once, and
   * in the fixed order: no functions, long file, long lines.
   */
  lemma IssuesExactly(noFunctions: bool, longFile: bool, longLines: bool)
    ensures var issues := Issues(noFunctions, longFile, longLines);
            && (NoFunctionsIssue in issues <==> noFunctions)
            && (LongFileIssue in issues <==> longFile)
            && (LongLinesIssue in issues <==> longLines)
            && |issues| <= 3
            && forall i, j :: 0 <= i < j < |issues| ==> IssueRank(issues[i]) < IssueRank(issues[j])
  {
    assert |NoFunctionsIssue| == 53 && |LongFileIssue| == 54 && |LongLinesIssue| == 55;
  }

  /**
   * `detect_issues`: "function_count" (default 0) equal to 0, "complexity_score"
   * (default 0) above 50, and a line longer than 80 characters each add their
   * issue; writes the list under "issues" and its length under "issue_count".
   */
  function DetectIssues(state: State, config: State): ToolOutcome {
    var noFunctions := Equal(Get(state, "function_count", Int(0)), Int(0));
    match Compare(Gt, Get(state, "complexity_score", Int(0)), Int(50))
    case Err(e) => Raised(state, e.Text())
    case Ok(longFile) =>
      match CodeLines(state)
      case Err(e) => Raised(state, e.Text())
      case Ok(lines) =>
        var issues := Issues(noFunctions, longFile, |LongLines(lines)| > 0);
        var updated := state["issues" := StrList(issues)]["issue_count" := Int(|issues|)];
        Returned(updated, Some(updated))
  }

  /** The comprehension `[ln for ln in lines if len(ln) > 80]`, as a loop. */
  method CollectLongLines(lines: seq<string>) returns (longLines: seq<string>)
    ensures longLines == LongLines(lines)
  {
    longLines := [];
    for i := 0 to |lines|
      invariant longLines == LongLines(lines[..i])
    {
      assert lines[..i + 1][..i] == lines[..i];
      if |lines[i]| > 80 {
        longLines := longLines + [lines[i]];
      }
    }
    assert lines[..|lines|] == lines;
  }

  method DetectIssuesTool(state: State, config: State) returns (outcome: ToolOutcome)
    ensures outcome == DetectIssues(state, config)
  {
    var noFunctions := Equal(Get(state, "function_count", Int(0)), Int(0));
    var issues: seq<string> := [];
    if noFunctions {
      issues := issues + [NoFunctionsIssue];
    }
    var longFile := Compare(Gt, Get(state, "complexity_score", Int(0)), Int(50));
    if longFile.Err? {
      assert DetectIssues(state, config) == Raised(state, longFile.error.Text());
      return Raised(state, longFile.error.Text());
    }
    if longFile.value {
      issues := issues + [LongFileIssue];
    }
    var code := Get(state, "code", Str(""));
    if !code.Str? {
      ghost var failed := CodeLines(state);
      assert DetectIssues(state, config) == Raised(state, failed.error.Text());
      return Raised(state, AttributeError("'" + TypeName(code) + "' object has no attribute 'splitlines'").Text());
    }
    var lines := SplitLines(code.s);
    assert CodeLines(state) == Ok(lines);
    var longLines := CollectLongLines(lines);
    if longLines != [] {
      issues := issues + [LongLinesIssue];
    }
    assert issues == Issues(noFunctions, longFile.value, |longLines| > 0);
    var updated := state["issues" := StrList(issues)];
    updated := updated["issue_count" := Int(|issues|)];
    assert DetectIssues(state, config) == Returned(updated, Some(updated));
    outcome := Returned(updated, Some(updated));
  }

  /**
   * detect_issues raises only when "complexity_score" cannot be compared
   * with 50 or "code" holds something other than a str, and then writes
   * nothing.  Otherwise it writes only "issues" and "issue_count": the
   * no-functions issue exactly when "function_count" (default 0) equals 0,
   * the long-file issue exactly when "complexity_score" (default 0) exceeds
   * 50, the long-lines issue exactly when some line is longer than 80
   * characters, in that order, and their number, at most 3.
   */
  lemma DetectIssuesContract(state: State, config: State)
    ensures var out := DetectIssues(state, config);
            var longFile := Compare(Gt, Get(state, "complexity_score", Int(0)), Int(50));
            && (out.Raised? <==> longFile.Err? || ("code" in state && !state["code"].Str?))
            && (out.Raised? ==> out.mutated == state)
            && (out.Returned? ==>
                  var s := out.mutated;
                  var lines := CodeLines(state).value;
                  var issues := Issues(Equal(Get(state, "function_count", Int(0)), Int(0)), longFile.value,
                                       exists i :: 0 <= i < |lines| && |lines[i]| > 80);
                  && out.result == Some(s)
                  && OnlyWrites(state, s, {"issues", "issue_count"})
                  && s["issues"] == StrList(issues)
                  && s["issue_count"] == Int(|s["issues"].items|)
                  && s["issue_count"].i <= 3)
  {
    var lines := CodeLines(state);
    if lines.Ok? {
      var longFile := Compare(Gt, Get(state, "complexity_score", Int(0)), Int(50));
      if longFile.Ok? {
        IssuesExactly(Equal(Get(state, "function_count", Int(0)), Int(0)), longFile.value,
                      |LongLines(lines.value)| > 0);
      }
    }
  }

  // ---------------------------------------------------------------------
  // suggest_improvements
  // ---------------------------------------------------------------------

  const RefactorSuggestion: string := "Refactor repeated logic into functions."
  const SplitSuggestion: string := "Split the file into smaller modules by feature."
  const WrapSuggestion: string := "Wrap long lines to keep them readable."

  /** `for issue in v`: a list gives its items, a str its characters, anything else raises TypeError. */
  function IterItems(v: Value): (r: Result<seq<Value>>)
    ensures v.List? ==> r == Ok(v.items)
    ensures v.Str? ==> r.Ok? && |r.value| == |v.s|
    ensures v.Str? ==> forall k :: 0 <= k < |v.s| ==> r.value[k] == Str([v.s[k]])
    ensures r.Ok? <==> v.List? || v.Str?
  {
    match v
    case List(xs) => Ok(xs)
    case Str(s) => Ok(seq(|s|, k requires 0 <= k < |s| => Str([s[k]])))
    case _ => Err(TypeError("'" + TypeName(v) + "' object is not iterable"))
  }

  /** `needle in issue`: a substring test on a str, a membership test on a list, TypeError otherwise. */
  function ContainsTest(issue: Value, needle: string): (r: Result<bool>)
    ensures r.Ok? <==> issue.Str? || issue.List?
  {
    match issue
    case Str(s) => Ok(Contains(s, needle))
    case List(xs) => Ok(exists k :: 0 <= k < |xs| && Equal(xs[k], Str(needle)))
    case _ => Err(TypeError("argument of type '" + TypeName(issue) + "' is not iterable"))
  }

  /** The suggestion for one issue: the first rule whose text the issue contains, else "Address issue: ...". */
  function Suggestion(issue: Value): (r: Result<string>)
    ensures r.Ok? <==> issue.Str? || issue.List?
  {
    var noFunctions :- ContainsTest(issue, NoFunctionsPhrase);
    if noFunctions then Ok(RefactorSuggestion)
    else if ContainsTest(issue, SplittingPhrase).value then Ok(SplitSuggestion)
    else if ContainsTest(issue, WidthPhrase).value then Ok(WrapSuggestion)
    else Ok("Address issue: " + Text(issue))
  }

  /** The suggestions for a list of issues, one per issue, in order; the first issue that is not a str or list raises. */
  function Suggestions(issues: seq<Value>): (r: Result<seq<string>>)
    ensures r.Ok? <==> forall k :: 0 <= k < |issues| ==> issues[k].Str? || issues[k].List?
    ensures r.Ok? ==> |r.value| == |issues|
  {
    if issues == [] then Ok([])
    else
      var last := issues[|issues| - 1];
      var init := issues[..|issues| - 1];
      assert forall k :: 0 <= k < |init| ==> init[k] == issues[k];
      match Suggestions(init)
      case Err(e) => Err(e)
      case Ok(done) =>
        match Suggestion(last)
        case Err(e) => Err(e)
        case Ok(next) => Ok(done + [next])
  }

  /** Each issue's suggestion sits at the issue's own index. */
  lemma {:induction false} SuggestionsPerIssue(issues: seq<Value>)
    requires Suggestions(issues).Ok?
    ensures forall k :: 0 <= k < |issues| ==> Suggestion(issues[k]) == Ok(Suggestions(issues).value[k])
    decreases |issues|
  {
    if issues != [] {
      var init := issues[..|issues| - 1];
      SuggestionsPerIssue(init);
      assert forall k :: 0 <= k < |init| ==> init[k] == issues[k];
    }
  }

  /** `v + 1`: a number gives the next int; None, str and list raise TypeError. */
  function PlusOne(v: Value): (r: Result<Value>)
    ensures r.Ok? <==> IsNumber(v)
    ensures r.Ok? ==> r.value == Int(NumberOf(v) + 1)
  {
    match v
    case Bool(_) => Ok(Int(NumberOf(v) + 1))
    case Int(n) => Ok(Int(n + 1))
    case Null => Err(TypeError("unsupported operand type(s) for +: 'NoneType' and 'int'"))
    case Str(_) => Err(TypeError("can only concatenate str (not \"int\") to str"))
    case List(_) => Err(TypeError("can only concatenate list (not \"int\") to list"))
  }

  /** `v - 1 if v > 0 else v`; the comparison raises TypeError on anything but a number. */
  function DecrementIfPositive(v: Value): (r: Result<Value>)
    ensures r.Ok? <==> IsNumber(v)
    ensures r.Ok? && NumberOf(v) > 0 ==> r.value == Int(NumberOf(v) - 1)
    ensures r.Ok? && NumberOf(v) <= 0 ==> r.value == v
  {
    var positive :- Compare(Gt, v, Int(0));
    if positive then Ok(Int(NumberOf(v) - 1)) else Ok(v)
  }

  /**
   * `suggest_improvements`: one suggestion per issue under "suggestions",
   * "review_iterations" (default 0) up by one, and "issue_count" (default 0)
   * down by one when positive.  "review_iterations" is written before
   * "issue_count" is compared, so that write stays when the comparison raises.
   */
  function SuggestImprovements(state: State, config: State): ToolOutcome {
    match IterItems(Get(state, "issues", List([])))
    case Err(e) => Raised(state, e.Text())
    case Ok(issues) =>
      match Suggestions(issues)
      case Err(e) => Raised(state, e.Text())
      case Ok(suggestions) =>
        match PlusOne(Get(state, "review_iterations", Int(0)))
        case Err(e) => Raised(state, e.Text())
        case Ok(iterations) =>
          var counted := state["review_iterations" := iterations];
          match DecrementIfPositive(Get(counted, "issue_count", Int(0)))
          case Err(e) => Raised(counted, e.Text())
          case Ok(remaining) =>
            var updated := counted["issue_count" := remaining]["suggestions" := StrList(suggestions)];
            Returned(updated, Some(updated))
  }

  method SuggestImprovementsTool(state: State, config: State) returns (outcome: ToolOutcome)
    ensures outcome == SuggestImprovements(state, config)
  {
    var listed := IterItems(Get(state, "issues", List([])));
    if listed.Err? {
      return Raised(state, listed.error.Text());
    }
    var issues := listed.value;
    var suggestions: seq<string> := [];
    for i := 0 to |issues|
      invariant Suggestions(issues[..i]) == Ok(suggestions)
    {
      assert issues[..i + 1][..i] == issues[..i];
      var next := Suggestion(issues[i]);
      if next.Err? {
        assert Suggestions(issues[..i + 1]) == Err(next.error);
        SuggestionsPrefixFails(issues, i + 1);
        return Raised(state, next.error.Text());
      }
      suggestions := suggestions + [next.value];
    }
    assert issues[..|issues|] == issues;
    var iterations := PlusOne(Get(state, "review_iterations", Int(0)));
    if iterations.Err? {
      return Raised(state, iterations.error.Text());
    }
    var updated := state["review_iterations" := iterations.value];
    var remaining := DecrementIfPositive(Get(updated, "issue_count", Int(0)));
    if remaining.Err? {
      return Raised(updated, remaining.error.Text());
    }
    updated := updated["issue_count" := remaining.value];
    updated := updated["suggestions" := StrList(suggestions)];
    outcome := Returned(updated, Some(updated));
  }

  /** Once a prefix of the issues raises, so does the whole list, with the same exception. */
  lemma {:induction false} SuggestionsPrefixFails(issues: seq<Value>, n: nat)
    requires n <= |issues| && Suggestions(issues[..n]).Err?
    ensures Suggestions(issues) == Suggestions(issues[..n])
    decreases |issues| - n
  {
    if n < |issues| {
      assert issues[..n + 1][..n] == issues[..n];
      SuggestionsPrefixFails(issues, n + 1);
    } else {
      assert issues[..n] == issues;
    }
  }

  /**
   * suggest_improvements, when it returns: one suggestion per issue, the
   * i-th the first rule the i-th issue satisfies; "review_iterations" one
   * more than before (0 when absent); "issue_count" one less when it was
   * positive and unchanged otherwise, so never negative from a non-negative
   * start; and no other key touched.
   */
  lemma SuggestImprovementsContract(state: State, config: State)
    ensures var out := SuggestImprovements(state, config);
            out.Returned? ==>
              var s := out.mutated;
              var issues := IterItems(Get(state, "issues", List([]))).value;
              var before := Get(state, "issue_count", Int(0));
              && out.result == Some(s)
              && OnlyWrites(state, s, {"review_iterations", "issue_count", "suggestions"})
              && s["suggestions"].List? && |s["suggestions"].items| == |issues|
              && (forall k :: 0 <= k < |issues| ==>
                    s["suggestions"].items[k] == Str(Suggestion(issues[k]).value))
              && IsNumber(Get(state, "review_iterations", Int(0)))
              && s["review_iterations"] == Int(NumberOf(Get(state, "review_iterations", Int(0))) + 1)
              && IsNumber(before)
              && (NumberOf(before) > 0 ==> s["issue_count"] == Int(NumberOf(before) - 1))
              && (NumberOf(before) <= 0 ==> s["issue_count"] == before)
              && (NumberOf(before) >= 0 ==> NumberOf(s["issue_count"]) >= 0)
  {
    var listed := IterItems(Get(state, "issues", List([])));
    if listed.Ok? && Suggestions(listed.value).Ok? {
      SuggestionsPerIssue(listed.value);
      var iterations := PlusOne(Get(state, "review_iterations", Int(0)));
      if iterations.Ok? {
        var counted := state["review_iterations" := iterations.value];
        assert Get(counted, "issue_count", Int(0)) == Get(state, "issue_count", Int(0));
        var remaining := DecrementIfPositive(Get(counted, "issue_count", Int(0)));
        if remaining.Ok? {
          SuggestImprovementsReturns(state, config, listed.value, Suggestions(listed.value).value,
                                     iterations.value, remaining.value);
        }
      }
    }
  }

  /**
   * suggest_improvements raises exactly when "issues" is not iterable, an
   * issue is neither a str nor a list, "review_iterations" is not a number,
   * or "issue_count" is not a number; only in the last case has it already
   * written the new "review_iterations".
   */
  lemma SuggestImprovementsRaises(state: State, config: State)
    ensures var out := SuggestImprovements(state, config);
            var issues := Get(state, "issues", List([]));
            var iterations := Get(state, "review_iterations", Int(0));
            var early := || !(issues.List? || issues.Str?)
                         || (issues.List? && exists k :: 0 <= k < |issues.items| && !(issues.items[k].Str? || issues.items[k].List?))
                         || !IsNumber(iterations);
            && (out.Raised? <==> early || !IsNumber(Get(state, "issue_count", Int(0))))
            && (early ==> out.mutated == state)
            && (!early && out.Raised? ==>
                  out.mutated == state["review_iterations" := Int(NumberOf(iterations) + 1)])
  {
    var issues := Get(state, "issues", List([]));
    if issues.Str? {
      var items := IterItems(issues).value;
      assert forall k :: 0 <= k < |items| ==> items[k].Str?;
    }
  }

  // ---------------------------------------------------------------------
  // detect_issues followed by suggest_improvements
  // ---------------------------------------------------------------------

  /** A text lacking one of the characters of `sub` does not contain it. */
  lemma MissingCharNotContained(s: string, sub: string, c: char)
    requires c in sub && c !in s
    ensures !Contains(s, sub)
  {
    ContainsOccurs(s, sub);
  }

  lemma NotInConcat(a: string, b: string, c: char)
    requires c !in a && c !in b
    ensures c !in a + b
  {
    assert forall j :: 0 <= j < |a + b| ==> (a + b)[j] == if j < |a| then a[j] else b[j - |a|];
  }

  /** The suggestion written for each issue detect_issues can report. */
  function TailoredSuggestion(issue: string): string {
    if issue == NoFunctionsIssue then RefactorSuggestion
    else if issue == LongFileIssue then SplitSuggestion
    else WrapSuggestion
  }

  /** A text contains what it is built around. */
  lemma ContainsMiddle(before: string, phrase: string, after: string)
    ensures Contains(before + phrase + after, phrase)
  {
    var s := before + phrase + after;
    assert s[|before|..|before| + |phrase|] == phrase;
    assert OccursAt(s, phrase, |before|);
    ContainsOccurs(s, phrase);
  }

  /** A text built from three pieces that all lack `c` does not contain a phrase holding `c`. */
  lemma PiecesLackPhrase(a: string, b: string, d: string, phrase: string, c: char)
    requires c in phrase && c !in a && c !in b && c !in d
    ensures !Contains(a + b + d, phrase)
  {
    NotInConcat(a, b, c);
    NotInConcat(a + b, d, c);
    MissingCharNotContained(a + b + d, phrase, c);
  }

  /** Only the no-functions issue mentions "No functions". */
  lemma OnlyFirstIssueMentionsNoFunctions()
    ensures Contains(NoFunctionsIssue, NoFunctionsPhrase)
    ensures !Contains(LongFileIssue, NoFunctionsPhrase)
    ensures !Contains(LongLinesIssue, NoFunctionsPhrase)
  {
    assert NoFunctionsPhrase <= NoFunctionsIssue;
    LongFileLacksNoFunctions();
    LongLinesLacksNoFunctions();
  }

  lemma LongFileLacksNoFunctions()
    ensures !Contains(LongFileIssue, NoFunctionsPhrase)
  {
    assert NoFunctionsPhrase[0] == 'N';
    PiecesLackPhrase("File is ", SplittingPhrase, " into smaller modules.", NoFunctionsPhrase, 'N');
  }

  lemma LongLinesLacksNoFunctions()
    ensures !Contains(LongLinesIssue, NoFunctionsPhrase)
  {
    assert NoFunctionsPhrase[0] == 'N';
    PiecesLackPhrase("Some lines exceed ", WidthPhrase, "; consider reformatting.", NoFunctionsPhrase, 'N');
  }

  /** The long-file issue mentions "long; consider splitting" and the long-lines issue does not. */
  lemma OnlySecondIssueMentionsSplitting()
    ensures Contains(LongFileIssue, SplittingPhrase)
    ensures !Contains(LongLinesIssue, SplittingPhrase)
  {
    ContainsMiddle("File is ", SplittingPhrase, " into smaller modules.");
    assert 'p' == SplittingPhrase[16];
    PiecesLackPhrase("Some lines exceed ", WidthPhrase, "; consider reformatting.", SplittingPhrase, 'p');
  }

  /** Each issue detect_issues reports matches the rule written for it, and no earlier rule. */
  lemma IssueSuggestions()
    ensures Suggestion(Str(NoFunctionsIssue)) == Ok(RefactorSuggestion)
    ensures Suggestion(Str(LongFileIssue)) == Ok(SplitSuggestion)
    ensures Suggestion(Str(LongLinesIssue)) == Ok(WrapSuggestion)
  {
    OnlyFirstIssueMentionsNoFunctions();
    OnlySecondIssueMentionsSplitting();
    ContainsMiddle("Some lines exceed ", WidthPhrase, "; consider reformatting.");
  }

  /** One of the texts detect_issues reports. */
  predicate IsReportable(issue: string) {
    issue == NoFunctionsIssue || issue == LongFileIssue || issue == LongLinesIssue
  }

  lemma IssuesAreReportable(noFunctions: bool, longFile: bool, longLines: bool)
    ensures forall k :: 0 <= k < |Issues(noFunctions, longFile, longLines)| ==>
              IsReportable(Issues(noFunctions, longFile, longLines)[k])
  {
  }

  /** The tailored suggestion of each issue, in order. */
  function TailoredSuggestions(issues: seq<string>): (r: seq<string>)
    ensures |r| == |issues|
    ensures forall k :: 0 <= k < |issues| ==> r[k] == TailoredSuggestion(issues[k])
  {
    seq(|issues|, k requires 0 <= k < |issues| => TailoredSuggestion(issues[k]))
  }

  /** A list of reported issues gets one tailored suggestion per issue, in order. */
  lemma SuggestionsForReported(issues: seq<string>)
    requires forall k :: 0 <= k < |issues| ==> IsReportable(issues[k])
    ensures Suggestions(StrList(issues).items) == Ok(TailoredSuggestions(issues))
  {
    IssueSuggestions();
    var items := StrList(issues).items;
    assert forall k :: 0 <= k < |items| ==> items[k] == Str(issues[k]);
    SuggestionsPerIssue(items);
    var r := Suggestions(items);
    assert r.value == TailoredSuggestions(issues);
  }

  /** A count that is not negative goes down by one, stopping at 0, after "review_iterations" was written. */
  lemma CountDown(state: State, iterations: Value, n: nat)
    requires "issue_count" in state && state["issue_count"] == Int(n)
    ensures DecrementIfPositive(Get(state["review_iterations" := iterations], "issue_count", Int(0)))
            == Ok(Int(if n > 0 then n - 1 else 0))
  {
    assert Get(state["review_iterations" := iterations], "issue_count", Int(0)) == Int(n);
  }

  /** The path through suggest_improvements on which every step succeeds. */
  lemma SuggestImprovementsReturns(state: State, config: State, items: seq<Value>, suggestions: seq<string>,
                                   iterations: Value, remaining: Value)
    requires IterItems(Get(state, "issues", List([]))) == Ok(items)
    requires Suggestions(items) == Ok(suggestions)
    requires PlusOne(Get(state, "review_iterations", Int(0))) == Ok(iterations)
    requires DecrementIfPositive(Get(state["review_iterations" := iterations], "issue_count", Int(0))) == Ok(remaining)
    ensures var updated := state["review_iterations" := iterations]["issue_count" := remaining]
                                ["suggestions" := StrList(suggestions)];
            SuggestImprovements(state, config) == Returned(updated, Some(updated))
  {
  }

  /**
   * suggest_improvements on a state holding reported issues under "issues"
   * and their number under "issue_count", with a numeric
   * "review_iterations": it returns, having written the tailored
   * suggestions, the next iteration count and the count of issues less one
   * (0 stays 0).
   */
  lemma {:induction false} SuggestAfterReport(state: State, config: State, issues: seq<string>)
    requires forall k :: 0 <= k < |issues| ==> IsReportable(issues[k])
    requires "issues" in state && state["issues"] == StrList(issues)
    requires "issue_count" in state && state["issue_count"] == Int(|issues|)
    requires IsNumber(Get(state, "review_iterations", Int(0)))
    ensures var iterations := Int(NumberOf(Get(state, "review_iterations", Int(0))) + 1);
            var remaining := Int(if |issues| > 0 then |issues| - 1 else 0);
            var updated := state["review_iterations" := iterations]["issue_count" := remaining]
                                ["suggestions" := StrList(TailoredSuggestions(issues))];
            SuggestImprovements(state, config) == Returned(updated, Some(updated))
  {
    var iterations := Int(NumberOf(Get(state, "review_iterations", Int(0))) + 1);
    assert Get(state, "issues", List([])) == StrList(issues);
    SuggestionsForReported(issues);
    CountDown(state, iterations, |issues|);
    SuggestImprovementsReturns(state, config, StrList(issues).items, TailoredSuggestions(issues),
                               iterations, Int(if |issues| > 0 then |issues| - 1 else 0));
  }

  /**
   * After detect_issues, suggest_improvements returns whenever
   * "review_iterations" is a number: each reported issue gets its tailored
   * suggestion, in the same order, and "issue_count" goes down by one unless
   * nothing was reported.
   */
  lemma DetectThenSuggest(state: State, config: State)
    requires DetectIssues(state, config).Returned?
    requires IsNumber(Get(state, "review_iterations", Int(0)))
    ensures var detected := DetectIssues(state, config).mutated;
            var issues := detected["issues"].items;
            var out := SuggestImprovements(detected, config);
            && out.Returned?
            && out.mutated["suggestions"].List?
            && |out.mutated["suggestions"].items| == |issues|
            && (forall k :: 0 <= k < |issues| ==>
                  issues[k].Str? && out.mutated["suggestions"].items[k] == Str(TailoredSuggestion(issues[k].s)))
            && out.mutated["issue_count"] == Int(if |issues| > 0 then |issues| - 1 else 0)
  {
    var detected := DetectIssues(state, config).mutated;
    var reported := DetectedReport(state, config);
    SuggestAfterReport(detected, config, reported);
    var suggestions := StrList(TailoredSuggestions(reported));
    assert forall k :: 0 <= k < |reported| ==> suggestions.items[k] == Str(TailoredSuggestion(reported[k]));
  }

  /** What detect_issues leaves for suggest_improvements: reportable issues, their number, and the iteration count untouched. */
  lemma DetectedReport(state: State, config: State) returns (reported: seq<string>)
    requires DetectIssues(state, config).Returned?
    ensures var detected := DetectIssues(state, config).mutated;
            && "issues" in detected && detected["issues"] == StrList(reported)
            && "issue_count" in detected && detected["issue_count"] == Int(|reported|)
            && Get(detected, "review_iterations", Int(0)) == Get(state, "review_iterations", Int(0))
            && forall k :: 0 <= k < |reported| ==> IsReportable(reported[k])
  {
    var lines := CodeLines(state).value;
    var noFunctions := Equal(Get(state, "function_count", Int(0)), Int(0));
    var longFile := Compare(Gt, Get(state, "complexity_score", Int(0)), Int(50)).value;
    reported := Issues(noFunctions, longFile, |LongLines(lines)| > 0);
    IssuesAreReportable(noFunctions, longFile, |LongLines(lines)| > 0);
    assert DetectIssues(state, config).mutated == state["issues" := StrList(reported)]["issue_count" := Int(|reported|)];
  }
}
