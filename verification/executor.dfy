/** The executor of generated code: the fence sanitiser `clean_generated_code`
    and the result envelope of `SEOCodeExecutor.execute`. Running Python code
    is outside the model: `exec` and the awaited `run()` are parameters that
    say how the run went. */
module Executor {
  import opened Wrappers
  import opened Json
  import opened Text

  /** The three backticks of a Markdown code fence. */
  const Fence := "```"
  /** A newline followed by a fence: the start of the closing pattern. */
  const Close := "\n```"

  /** Three backticks start at index `i` of `s`. */
  predicate BackticksAt(s: string, i: int) {
    0 <= i && i + 3 <= |s| && s[i] == '`' && s[i + 1] == '`' && s[i + 2] == '`'
  }

  // ---------------------------------------------------------------------
  // The two regular-expression substitutions
  // ---------------------------------------------------------------------

  /** Index of the last newline of `w`, if any. */
  function LastNewline(w: string): (k: Option<nat>)
    ensures k.Some? ==> k.value < |w| && w[k.value] == '\n' && '\n' !in w[k.value + 1..]
    ensures k.None? ==> '\n' !in w
  {
    if w == [] then None
    else if w[|w| - 1] == '\n' then Some(|w| - 1)
    else
      var init := w[..|w| - 1];
      var k := LastNewline(init);
      assert w == init + [w[|w| - 1]];
      assert k.Some? ==> w[k.value + 1..] == init[k.value + 1..] + [w[|w| - 1]];
      k
  }

  /** Length of the optional tag `(?:python|py)?` at the start of `rest`:
      the regular expression tries "python" first, then "py", then nothing. */
  function TagLength(rest: string): (n: nat)
    ensures n <= |rest|
  {
    if |rest| >= 6 && rest[0] == 'p' && rest[1] == 'y' && rest[2] == 't'
       && rest[3] == 'h' && rest[4] == 'o' && rest[5] == 'n' then 6
    else if |rest| >= 2 && rest[0] == 'p' && rest[1] == 'y' then 2
    else 0
  }

  /** Length of the match of ^```(?:python|py)?\s*\n at the start of `s`
      (which must be a line start). `\s*` backs off from the longest
      whitespace run after the tag to the run's last newline; without a
      newline in the run there is no match. A shorter tag never helps: after
      "py" or an empty tag the next character is a letter. */
  function OpenFence(s: string): (m: Option<nat>)
    ensures m.Some? ==> 0 < m.value <= |s| && BackticksAt(s, 0) && s[m.value - 1] == '\n'
    ensures m.Some? ==> '\n' in s
  {
    if !BackticksAt(s, 0) then None
    else
      var rest := s[3..];
      var afterTag := rest[TagLength(rest)..];
      match LastNewline(afterTag[..LeadingSpaces(afterTag)])
      case None => None
      case Some(k) => Some(3 + TagLength(rest) + k + 1)
  }

  /** `re.sub(r'^```(?:python|py)?\s*\n', '', s, flags=re.MULTILINE)`:
      scanning left to right, a match is tried at every line start and the
      scan resumes right after it (again a line start). */
  function StripOpening(s: string, lineStart: bool): string
    decreases |s|
  {
    if s == [] then []
    else if lineStart && OpenFence(s).Some? then StripOpening(s[OpenFence(s).value..], true)
    else [s[0]] + StripOpening(s[1..], s[0] == '\n')
  }

  /** Length of the match of \n```\s*$ at the start of `s`. The whitespace
      run either reaches the end of the string, or the match ends just before
      the run's last newline (where `$` also holds); otherwise no match. */
  function CloseFence(s: string): (m: Option<nat>)
    ensures m.Some? ==> 4 <= m.value <= |s| && s[0] == '\n' && BackticksAt(s, 1)
    ensures m.Some? ==> m.value == |s| || s[m.value] == '\n'
  {
    if !(|s| >= 4 && s[0] == '\n' && BackticksAt(s, 1)) then None
    else
      var rest := s[4..];
      var n := LeadingSpaces(rest);
      if n == |rest| then Some(|s|)
      else match LastNewline(rest[..n])
        case None => None
        case Some(k) => Some(4 + k)
  }

  /** `re.sub(r'\n```\s*$', '', s, flags=re.MULTILINE)`. */
  function StripClosing(s: string): string
    decreases |s|
  {
    if s == [] then []
    else if CloseFence(s).Some? then StripClosing(s[CloseFence(s).value..])
    else [s[0]] + StripClosing(s[1..])
  }

  // ---------------------------------------------------------------------
  // clean_generated_code
  // ---------------------------------------------------------------------

  /** `clean_generated_code`: the two substitutions, a strip, the fence
      edges dropped, and a final strip. The result never starts or ends
      with whitespace. */
  function CleanGeneratedCode(code: string): (r: string)
    ensures r == [] || (!IsSpace(r[0]) && !IsSpace(r[|r| - 1]))
  {
    Trim(DropFenceEdges(Trim(Substituted(code))))
  }

  /** The two substitutions, in the source's order. */
  function Substituted(code: string): string {
    StripClosing(StripOpening(code, true))
  }

  /** On a string starting with ```, `split('```', 1)[-1]` keeps what follows
      that first occurrence; then on a string ending with ```,
      `rsplit('```', 1)[0]` keeps what precedes that last occurrence. */
  function DropFenceEdges(t: string): string {
    var u := if BackticksAt(t, 0) then t[3..] else t;
    if BackticksAt(u, |u| - 3) then u[..|u| - 3] else u
  }

  /** No ``` anywhere in `s`. */
  ghost predicate FenceFree(s: string) {
    forall i :: !BackticksAt(s, i)
  }

  // ---------------------------------------------------------------------
  // Lemmas about the pieces
  // ---------------------------------------------------------------------

  /** A slice of a fence-free string is fence-free. */
  lemma FenceFreeSlice(s: string, a: nat, b: nat)
    requires a <= b <= |s| && FenceFree(s)
    ensures FenceFree(s[a..b])
    ensures b == |s| ==> FenceFree(s[a..])
  {
    assert b == |s| ==> s[a..b] == s[a..];
    forall i ensures !BackticksAt(s[a..b], i) {
      if 0 <= i && i + 3 <= b - a {
        assert !BackticksAt(s, a + i);
      }
    }
  }

  /** Fence-free means the substring test for ``` fails. */
  lemma FenceFreeIffNoContains(s: string)
    ensures FenceFree(s) <==> !Contains(s, Fence)
  {
    ContainsIffWindow(s, Fence);
    forall i ensures WindowAt(s, Fence, i) <==> BackticksAt(s, i) {
      if BackticksAt(s, i) {
        assert s[i..i + 3] == Fence;
      }
      if WindowAt(s, Fence, i) {
        assert s[i..i + 3][0] == s[i] && s[i..i + 3][1] == s[i + 1] && s[i..i + 3][2] == s[i + 2];
      }
    }
  }

  lemma ConcatAssoc(a: string, b: string, c: string)
    ensures a + b + c == a + (b + c)
  {
  }

  lemma DropFromConcat(a: string, b: string, j: nat)
    requires j <= |a|
    ensures (a + b)[j..] == a[j..] + b
  {
  }

  /** The opening substitution changes nothing in a fence-free string. */
  lemma {:induction false} StripOpeningFenceFree(s: string, lineStart: bool)
    requires FenceFree(s)
    ensures StripOpening(s, lineStart) == s
    decreases |s|
  {
    if s != [] {
      assert !BackticksAt(s, 0);
      FenceFreeSlice(s, 1, |s|);
      StripOpeningFenceFree(s[1..], s[0] == '\n');
    }
  }

  /** The closing substitution changes nothing in a fence-free string. */
  lemma {:induction false} StripClosingFenceFree(s: string)
    requires FenceFree(s)
    ensures StripClosing(s) == s
    decreases |s|
  {
    if s != [] {
      assert !BackticksAt(s, 1);
      FenceFreeSlice(s, 1, |s|);
      StripClosingFenceFree(s[1..]);
    }
  }

  /** The opening substitution cannot match in a string without a newline. */
  lemma {:induction false} SingleLineOpening(s: string, lineStart: bool)
    requires '\n' !in s
    ensures StripOpening(s, lineStart) == s
    decreases |s|
  {
    if s != [] {
      assert s[1..] == s[|s| - |s[1..]|..];
      SingleLineOpening(s[1..], false);
    }
  }

  /** The closing substitution cannot match in a string without a newline. */
  lemma {:induction false} SingleLineClosing(s: string)
    requires '\n' !in s
    ensures StripClosing(s) == s
    decreases |s|
  {
    if s != [] {
      assert s[0] != '\n';
      assert s[1..] == s[|s| - |s[1..]|..];
      SingleLineClosing(s[1..]);
    }
  }

  /** Neither substitution can match in a string without a newline. */
  lemma SingleLineUntouched(s: string)
    requires '\n' !in s
    ensures Substituted(s) == s
  {
    SingleLineOpening(s, true);
    SingleLineClosing(s);
  }

  /** A lone ``` is left alone by both substitutions. */
  lemma LoneFenceUntouched()
    ensures StripOpening(Fence, true) == Fence
    ensures StripClosing(Fence) == Fence
  {
    assert Fence[3..] == [];
    assert OpenFence(Fence).None?;
    assert CloseFence(Fence).None?;
    assert Fence[1..] == "``";
    assert FenceFree("``");
    StripOpeningFenceFree("``", false);
    StripClosingFenceFree("``");
  }

  /** A fence-free text followed by a closing fence is left alone by the
      opening substitution: the final ``` has nothing after it, so no
      newline, and no other ``` exists. */
  lemma {:induction false} StripOpeningKeepsClose(x: string, lineStart: bool)
    requires FenceFree(x)
    ensures StripOpening(x + Close, lineStart) == x + Close
    decreases |x|
  {
    var s := x + Close;
    if x == [] {
      assert s == Close && s[1..] == Fence;
      assert !BackticksAt(s, 0);
      LoneFenceUntouched();
    } else {
      if |x| >= 3 {
        assert !BackticksAt(x, 0);
        assert s[0] == x[0] && s[1] == x[1] && s[2] == x[2];
      } else {
        assert s[|x|] == '\n';
      }
      assert !BackticksAt(s, 0);
      DropFromConcat(x, Close, 1);
      FenceFreeSlice(x, 1, |x|);
      StripOpeningKeepsClose(x[1..], x[0] == '\n');
    }
  }

  /** The closing substitution removes a final closing fence after a
      fence-free text, and nothing else. */
  lemma {:induction false} StripClosingRemovesClose(x: string)
    requires FenceFree(x)
    ensures StripClosing(x + Close) == x
    decreases |x|
  {
    var s := x + Close;
    if x == [] {
      assert s == Close && s[4..] == [];
      assert CloseFence(s) == Some(4);
    } else {
      if |x| >= 4 {
        assert !BackticksAt(x, 1);
        assert s[1] == x[1] && s[2] == x[2] && s[3] == x[3];
      } else {
        assert s[|x|] == '\n';
      }
      assert CloseFence(s).None?;
      DropFromConcat(x, Close, 1);
      FenceFreeSlice(x, 1, |x|);
      StripClosingRemovesClose(x[1..]);
    }
  }

  /** The tag the opening pattern picks in `tag + "\n" + x` is `tag` itself,
      for each of the source's tags. */
  lemma TagLengthOf(tag: string, x: string)
    requires tag == "python" || tag == "py" || tag == ""
    ensures TagLength(tag + "\n" + x) == |tag|
  {
    var rest := tag + "\n" + x;
    assert forall i :: 0 <= i < |tag| ==> rest[i] == tag[i];
    assert rest[|tag|] == '\n';
  }

  /** The last newline of a string with one more character in front. */
  lemma {:induction false} LastNewlineCons(c: char, v: string)
    ensures LastNewline([c] + v)
      == if LastNewline(v).Some? then Some(LastNewline(v).value + 1)
         else if c == '\n' then Some(0) else None
    decreases |v|
  {
    var cv := [c] + v;
    if v == [] {
      assert cv == [c] && cv[..0] == [];
    } else {
      assert cv[..|cv| - 1] == [c] + v[..|v| - 1];
      assert cv[|cv| - 1] == v[|v| - 1];
      LastNewlineCons(c, v[..|v| - 1]);
    }
  }

  /** How far into `x` the opening match reaches: just past the last newline
      of `x`'s leading whitespace, or not at all when it has none. */
  function SkippedSpaces(x: string): (j: nat)
    ensures j <= LeadingSpaces(x)
  {
    var lead := x[..LeadingSpaces(x)];
    match LastNewline(lead)
    case Some(k) => k + 1
    case None => 0
  }

  /** A leading whitespace character adds one to the leading run. */
  lemma LeadingSpacesCons(c: char, x: string)
    requires IsSpace(c)
    ensures LeadingSpaces([c] + x) == 1 + LeadingSpaces(x)
  {
    assert ([c] + x)[1..] == x;
  }

  /** After the tag, a newline and then `x`: the whitespace run's last
      newline is `SkippedSpaces(x)` characters into `x`. */
  lemma NewlineRunOf(x: string)
    ensures var afterTag := "\n" + x;
      LastNewline(afterTag[..LeadingSpaces(afterTag)]) == Some(SkippedSpaces(x))
  {
    var afterTag := "\n" + x;
    LeadingSpacesCons('\n', x);
    var lead := x[..LeadingSpaces(x)];
    assert afterTag[..LeadingSpaces(afterTag)] == "\n" + lead;
    LastNewlineCons('\n', lead);
  }

  /** The opening fence with one of the source's tags, a newline and then
      `x` matches up to the last newline of the whitespace that follows the
      tag, so it swallows `SkippedSpaces(x)` characters of `x`. */
  lemma OpeningFenceMatch(tag: string, x: string)
    requires tag == "python" || tag == "py" || tag == ""
    ensures OpenFence(Fence + tag + "\n" + x) == Some(|tag| + 4 + SkippedSpaces(x))
  {
    var rest := tag + "\n" + x;
    assert Fence + tag + "\n" + x == Fence + rest by {
      ConcatAssoc(Fence, tag, "\n");
      ConcatAssoc(Fence, tag + "\n", x);
    }
    FenceThen(rest);
    TagLengthOf(tag, x);
    assert rest[|tag|..] == "\n" + x by {
      ConcatAssoc(tag, "\n", x);
      DropFromConcat(tag, "\n" + x, |tag|);
    }
    NewlineRunOf(x);
  }

  /** A string starting with ``` has the rest after it. */
  lemma FenceThen(rest: string)
    ensures BackticksAt(Fence + rest, 0) && (Fence + rest)[3..] == rest
  {
  }

  /** Dropping part of the leading whitespace does not change the strip. */
  lemma {:induction false} TrimDropsLeadingSpaces(x: string, j: nat)
    requires j <= LeadingSpaces(x)
    ensures Trim(x[j..]) == Trim(x)
    decreases j
  {
    if j > 0 {
      assert x[1..][j - 1..] == x[j..];
      TrimDropsLeadingSpaces(x[1..], j - 1);
      assert IsSpace(x[0]);
      assert x[1..][LeadingSpaces(x[1..])..] == x[LeadingSpaces(x)..];
    }
  }

  /** The strip of a string is one of its slices. */
  lemma TrimIsSlice(x: string) returns (a: nat, b: nat)
    ensures a <= b <= |x| && Trim(x) == x[a..b]
  {
    a := LeadingSpaces(x);
    var t := x[a..];
    b := a + |t| - TrailingSpaces(t);
    assert t[..|t| - TrailingSpaces(t)] == x[a..b];
  }

  /** Once stripped, a fence-free text has no fence edges to drop, and the
      last strip changes nothing. */
  lemma TrimKeepsFenceFree(x: string)
    requires FenceFree(x)
    ensures var t := Trim(x);
      DropFenceEdges(t) == t && Trim(t) == t
  {
    var a, b := TrimIsSlice(x);
    FenceFreeSlice(x, a, b);
    var t := Trim(x);
    assert !BackticksAt(t, 0) && !BackticksAt(t, |t| - 3);
    TrimOfTrimmed(t);
  }

  /** Cleaning continues from what the substitutions produced. */
  lemma CleanAfterSubstitution(code: string, t: string)
    requires Substituted(code) == t
    ensures CleanGeneratedCode(code) == Trim(DropFenceEdges(Trim(t)))
  {
  }

  // ---------------------------------------------------------------------
  // What clean_generated_code promises
  // ---------------------------------------------------------------------

  /** Code with no ``` anywhere is only stripped. */
  lemma CleanWithoutFences(code: string)
    requires !Contains(code, Fence)
    ensures CleanGeneratedCode(code) == Trim(code)
  {
    FenceFreeIffNoContains(code);
    assert Substituted(code) == code by {
      StripOpeningFenceFree(code, true);
      StripClosingFenceFree(code);
    }
    TrimKeepsFenceFree(code);
  }

  /** Past a run of whitespace, leading whitespace counts on into what
      follows. */
  lemma {:induction false} LeadingSpacesAppend(x: string, y: string)
    ensures LeadingSpaces(x) < |x| ==> LeadingSpaces(x + y) == LeadingSpaces(x)
    ensures LeadingSpaces(x) == |x| ==> LeadingSpaces(x + y) == |x| + LeadingSpaces(y)
    decreases |x|
  {
    if x != [] {
      assert (x + y)[1..] == x[1..] + y;
      assert (x + y)[0] == x[0];
      LeadingSpacesAppend(x[1..], y);
    } else {
      assert x + y == y;
    }
  }

  /** Where the opening pattern matches at a line start, the scan resumes
      right after the match. */
  lemma StripOpeningAtMatch(s: string)
    requires OpenFence(s).Some?
    ensures StripOpening(s, true) == StripOpening(s[OpenFence(s).value..], true)
  {
  }

  /** When the opening fence line swallows `SkippedSpaces(x)` characters of
      `x` and what remains is left alone, the substitution leaves just that. */
  lemma OpeningAfterFenceLine(tag: string, x: string, rest: string)
    requires tag == "python" || tag == "py" || tag == ""
    requires x[SkippedSpaces(x)..] == rest && StripOpening(rest, true) == rest
    ensures StripOpening(Fence + tag + "\n" + x, true) == rest
  {
    var pre := Fence + tag + "\n";
    OpeningFenceMatch(tag, x);
    DropPast(pre, x, SkippedSpaces(x));
    ResumeAfterMatch(pre + x, |pre| + SkippedSpaces(x), rest);
  }

  lemma DropPast(a: string, b: string, j: nat)
    requires j <= |b|
    ensures (a + b)[|a| + j..] == b[j..]
  {
  }

  /** A match at a line start followed by text the scan leaves alone: the
      substitution leaves just that text. */
  lemma ResumeAfterMatch(s: string, m: nat, rest: string)
    requires OpenFence(s) == Some(m) && m <= |s| && s[m..] == rest && StripOpening(rest, true) == rest
    ensures StripOpening(s, true) == rest
  {
    StripOpeningAtMatch(s);
  }

  /** On a fenced block whose text is not blank, the opening substitution
      removes the fence line and any blank lines after it. */
  lemma OpeningOfFencedText(tag: string, x: string)
    requires tag == "python" || tag == "py" || tag == ""
    requires FenceFree(x) && LeadingSpaces(x) < |x|
    ensures SkippedSpaces(x + Close) <= LeadingSpaces(x)
      && StripOpening(Fence + tag + "\n" + x + Close, true) == x[SkippedSpaces(x + Close)..] + Close
  {
    var xc := x + Close;
    var j := SkippedSpaces(xc);
    assert j <= LeadingSpaces(x) by {
      LeadingSpacesAppend(x, Close);
    }
    var rest := x[j..] + Close;
    assert StripOpening(rest, true) == rest by {
      FenceFreeSlice(x, j, |x|);
      StripOpeningKeepsClose(x[j..], true);
    }
    DropFromConcat(x, Close, j);
    OpeningAfterFenceLine(tag, xc, rest);
    ConcatAssoc(Fence + tag + "\n", x, Close);
  }

  /** The substitutions on a fenced block whose text is not blank remove
      the opening fence line (with any blank lines after it) and the
      closing fence, and nothing else. */
  lemma SubstitutedFencedText(tag: string, x: string)
    requires tag == "python" || tag == "py" || tag == ""
    requires FenceFree(x) && LeadingSpaces(x) < |x|
    ensures SkippedSpaces(x + Close) <= LeadingSpaces(x)
      && Substituted(Fence + tag + "\n" + x + Close) == x[SkippedSpaces(x + Close)..]
  {
    OpeningOfFencedText(tag, x);
    var j := SkippedSpaces(x + Close);
    FenceFreeSlice(x, j, |x|);
    StripClosingRemovesClose(x[j..]);
  }

  /** The fenced round trip for a text that is not blank. */
  lemma CleanFencedText(tag: string, x: string)
    requires tag == "python" || tag == "py" || tag == ""
    requires FenceFree(x) && LeadingSpaces(x) < |x|
    ensures CleanGeneratedCode(Fence + tag + "\n" + x + Close) == Trim(x)
  {
    var j := SkippedSpaces(x + Close);
    SubstitutedFencedText(tag, x);
    CleanAfterSubstitution(Fence + tag + "\n" + x + Close, x[j..]);
    TrimDropsLeadingSpaces(x, j);
    TrimKeepsFenceFree(x);
  }

  /** In a blank text followed by the closing fence, the opening match
      reaches past the closing fence's newline. */
  lemma SkippedSpacesOfBlank(x: string)
    requires LeadingSpaces(x) == |x|
    ensures SkippedSpaces(x + Close) == |x| + 1
  {
    var xc := x + Close;
    assert LeadingSpaces(Close) == 1 by {
      assert Close[1..][0] == '`';
    }
    LeadingSpacesAppend(x, Close);
    assert xc[..|x| + 1] == x + "\n";
    LastNewlineAtEnd(x + "\n");
  }

  /** A string ending in a newline has its last newline at the end. */
  lemma LastNewlineAtEnd(w: string)
    requires w != [] && w[|w| - 1] == '\n'
    ensures LastNewline(w) == Some(|w| - 1)
  {
  }

  /** On a blank text the opening match runs up to the newline of the
      closing fence, leaving a lone ```, which neither substitution touches. */
  lemma SubstitutedFencedBlank(tag: string, x: string)
    requires tag == "python" || tag == "py" || tag == ""
    requires LeadingSpaces(x) == |x|
    ensures Substituted(Fence + tag + "\n" + x + Close) == Fence
  {
    var xc := x + Close;
    SkippedSpacesOfBlank(x);
    assert xc[|x| + 1..] == Fence by {
      assert Close == "\n" + Fence;
      ConcatAssoc(x, "\n", Fence);
      DropFromConcat(x + "\n", Fence, |x| + 1);
    }
    LoneFenceUntouched();
    OpeningAfterFenceLine(tag, xc, Fence);
    ConcatAssoc(Fence + tag + "\n", x, Close);
  }

  /** A blank text: nothing remains. */
  lemma CleanFencedBlank(tag: string, x: string)
    requires tag == "python" || tag == "py" || tag == ""
    requires LeadingSpaces(x) == |x|
    ensures CleanGeneratedCode(Fence + tag + "\n" + x + Close) == Trim(x) == []
  {
    SubstitutedFencedBlank(tag, x);
    CleanOfLoneFence(Fence + tag + "\n" + x + Close);
    TrimOfBlank(x);
  }

  /** Whatever the substitutions reduce to a lone ``` cleans to nothing. */
  lemma CleanOfLoneFence(code: string)
    requires Substituted(code) == Fence
    ensures CleanGeneratedCode(code) == []
  {
    CleanAfterSubstitution(code, Fence);
    assert Trim(Fence) == Fence by {
      TrimOfTrimmed(Fence);
    }
    assert DropFenceEdges(Fence) == [];
  }

  /** A blank string strips to nothing. */
  lemma TrimOfBlank(x: string)
    requires LeadingSpaces(x) == |x|
    ensures Trim(x) == []
  {
    assert x[LeadingSpaces(x)..] == [];
  }

  /** The fenced round trip: a text without ``` wrapped in a ```python,
      ```py or bare opening fence line and a closing fence cleans to its own
      strip, so a text that is already stripped comes back unchanged. */
  lemma CleanFencedBlock(tag: string, x: string)
    requires tag == "python" || tag == "py" || tag == ""
    requires !Contains(x, Fence)
    ensures CleanGeneratedCode(Fence + tag + "\n" + x + Close) == Trim(x)
    ensures Trim(x) == x ==> CleanGeneratedCode(Fence + tag + "\n" + x + Close) == x
  {
    FenceFreeIffNoContains(x);
    if LeadingSpaces(x) < |x| {
      CleanFencedText(tag, x);
    } else {
      CleanFencedBlank(tag, x);
    }
  }

  /** After the strip, a leading ``` and a trailing ``` both go. */
  lemma DropBothFenceEdges(y: string)
    ensures DropFenceEdges(Fence + y + Fence) == y
  {
    var s := Fence + y + Fence;
    assert BackticksAt(s, 0);
    var u := s[3..];
    assert u == y + Fence;
    assert BackticksAt(u, |u| - 3);
    assert u[..|u| - 3] == y;
  }

  /** A string without newlines and without whitespace at either end comes
      through the substitutions and the first strip unchanged. */
  lemma SingleLineKept(s: string)
    requires '\n' !in s && |s| > 0 && !IsSpace(s[0]) && !IsSpace(s[|s| - 1])
    ensures Trim(Substituted(s)) == s
  {
    SingleLineUntouched(s);
    TrimOfTrimmed(s);
  }

  /** A one-line fenced snippet, such as ```print(1)```, loses both fences. */
  lemma CleanSingleLineFence(y: string)
    requires '\n' !in y
    ensures CleanGeneratedCode(Fence + y + Fence) == Trim(y)
  {
    var s := Fence + y + Fence;
    assert '\n' !in s by {
      assert forall i :: 0 <= i < |s| ==> s[i] == '`' || s[i] in y;
    }
    SingleLineKept(s);
    DropBothFenceEdges(y);
  }

  /** A leading ``` before a one-line text without backticks is dropped and
      the text kept. */
  lemma CleanLeadingFence(y: string)
    requires '\n' !in y && '`' !in y && y != [] && !IsSpace(y[0]) && !IsSpace(y[|y| - 1])
    ensures CleanGeneratedCode(Fence + y) == y
  {
    var once := Fence + y;
    assert forall i :: 0 <= i < |once| ==> once[i] == '`' || once[i] in y;
    assert once[|once| - 1] == y[|y| - 1];
    SingleLineKept(once);
    assert BackticksAt(once, 0) && once[3..] == y;
    assert y[|y| - 1] in y;
    assert DropFenceEdges(once) == y;
    TrimOfTrimmed(y);
  }

  /** Cleaning is not idempotent: on a doubled opening fence before a
      one-line text, each pass removes one fence. */
  lemma CleanNotIdempotent(y: string)
    requires '\n' !in y && '`' !in y && y != [] && !IsSpace(y[0]) && !IsSpace(y[|y| - 1])
    ensures CleanGeneratedCode(Fence + Fence + y) == Fence + y
    ensures CleanGeneratedCode(CleanGeneratedCode(Fence + Fence + y)) == y
  {
    var twice := Fence + Fence + y;
    var once := Fence + y;
    assert twice == Fence + once;
    assert forall i :: 0 <= i < |twice| ==> twice[i] == '`' || twice[i] in y;
    assert twice[|twice| - 1] == y[|y| - 1];
    SingleLineKept(twice);
    assert BackticksAt(twice, 0) && twice[3..] == once;
    assert once[|once| - 1] == y[|y| - 1];
    assert y[|y| - 1] in y;
    assert DropFenceEdges(twice) == once;
    TrimOfTrimmed(once);
    CleanLeadingFence(y);
  }

  // ---------------------------------------------------------------------
  // The execute envelope
  // ---------------------------------------------------------------------

  /** What a name of the execution namespace is bound to. */
  datatype Value =
    | NoneValue               // Python's None
    | RunToolBridge           // the injected `run_tool` coroutine function
    | Callable(id: nat)       // any other callable the code defines
    | NotCallable(data: Json) // any other value

  type Namespace = map<string, Value>

  /** How a Python exception reached the executor: its class name, its
      message (`str(e)`), the formatted traceback, and whether it derives
      from `Exception` (only those are caught). */
  datatype Raised = Raised(className: string, message: string, traceback: string, isException: bool)

  /** What `exec(code, globals)` did: raised, or ran and left a namespace. */
  datatype ExecOutcome = ExecRaised(error: Raised) | ExecDone(globals: Namespace)

  /** What awaiting `run()` did: returned a value, or raised. */
  datatype RunOutcome = Returned(result: Json) | RunRaised(error: Raised)

  /** The dictionary `execute` returns: `result` only when ok, `error` only
      when not, `traceback` only for the two error paths that caught an
      exception. */
  datatype Envelope = Envelope(ok: bool, result: Option<Json>, error: Option<string>, traceback: Option<string>)

  const NoRunMessage := "Generated code did not define an async function 'run'."

  function CompileError(e: Raised): string {
    "Error compiling generated code: " + e.className + ": " + e.message
  }

  function RunError(e: Raised): string {
    "Error during execution of run(): " + e.className + ": " + e.message
  }

  /** The namespace every execution starts from. */
  function FreshNamespace(): (ns: Namespace)
    ensures ns.Keys == {"run_tool"} && ns["run_tool"] == RunToolBridge
  {
    map["run_tool" := RunToolBridge]
  }

  /** `callable(v)` */
  predicate IsCallable(v: Value) {
    v.RunToolBridge? || v.Callable?
  }

  /** The envelope `execute` builds once `exec` has run: a caught compile
      error, a missing or uncallable `run`, or what awaiting `run()` did.
      `None` is an exception that is not an `Exception`, which escapes. */
  function EnvelopeOf(outcome: ExecOutcome, call: Value -> RunOutcome): Option<Envelope> {
    match outcome
    case ExecRaised(e) =>
      if e.isException then Some(Envelope(false, None, Some(CompileError(e)), Some(e.traceback))) else None
    case ExecDone(globals) =>
      var run := if "run" in globals then globals["run"] else NoneValue;
      if run.NoneValue? || !IsCallable(run) then Some(Envelope(false, None, Some(NoRunMessage), None))
      else match call(run)
        case Returned(result) => Some(Envelope(true, Some(result), None, None))
        case RunRaised(e) =>
          if e.isException then Some(Envelope(false, None, Some(RunError(e)), Some(e.traceback))) else None
  }

  /** `SEOCodeExecutor.execute`, step by step. */
  method Execute(code: string, exec: (string, Namespace) -> ExecOutcome, call: Value -> RunOutcome)
    returns (envelope: Option<Envelope>)
    ensures envelope == EnvelopeOf(exec(CleanGeneratedCode(code), FreshNamespace()), call)
  {
    var cleaned := CleanGeneratedCode(code);
    envelope := ExecuteCleaned(cleaned, exec, call);
  }

  /** `execute` once the code is cleaned: a fresh namespace with `run_tool`,
      then `exec`, the lookup of `run`, and the awaited call. */
  method ExecuteCleaned(cleaned: string, exec: (string, Namespace) -> ExecOutcome, call: Value -> RunOutcome)
    returns (envelope: Option<Envelope>)
    ensures envelope == EnvelopeOf(exec(cleaned, FreshNamespace()), call)
  {
    var execGlobals: Namespace := map[];
    execGlobals := execGlobals["run_tool" := RunToolBridge];
    var outcome := exec(cleaned, execGlobals);
    if outcome.ExecRaised? {
      if !outcome.error.isException {
        return None;
      }
      var e := outcome.error;
      return Some(Envelope(false, None, Some(CompileError(e)), Some(e.traceback)));
    }
    var runFn := if "run" in outcome.globals then outcome.globals["run"] else NoneValue;
    if runFn.NoneValue? || !IsCallable(runFn) {
      return Some(Envelope(false, None, Some(NoRunMessage), None));
    }
    var ran := call(runFn);
    if ran.Returned? {
      return Some(Envelope(true, Some(ran.result), None, None));
    }
    if !ran.error.isException {
      return None;
    }
    envelope := Some(Envelope(false, None, Some(RunError(ran.error)), Some(ran.error.traceback)));
  }

  /** The envelope's shape: `ok` exactly when a result is present; an error
      message exactly when not ok; a traceback only with an error. */
  lemma EnvelopeShape(outcome: ExecOutcome, call: Value -> RunOutcome)
    ensures var r := EnvelopeOf(outcome, call);
      r.Some? ==>
        && (r.value.ok <==> r.value.result.Some?)
        && (r.value.ok <==> r.value.error.None?)
        && (r.value.traceback.Some? ==> !r.value.ok)
  {
  }

  /** A compile error that is an `Exception` is reported with its class, its
      message and its traceback, and `run()` is never awaited. */
  lemma CompileErrorEnvelope(e: Raised, call: Value -> RunOutcome)
    requires e.isException
    ensures EnvelopeOf(ExecRaised(e), call)
      == Some(Envelope(false, None, Some("Error compiling generated code: " + e.className + ": " + e.message), Some(e.traceback)))
  {
  }

  /** A namespace with no callable `run` gives the fixed message and no
      traceback, whatever `run()` would have done. */
  lemma MissingRunEnvelope(globals: Namespace, call: Value -> RunOutcome)
    requires "run" !in globals || !IsCallable(globals["run"])
    ensures EnvelopeOf(ExecDone(globals), call)
      == Some(Envelope(false, None, Some("Generated code did not define an async function 'run'."), None))
  {
  }

  /** A callable `run` that returns gives exactly ok and its result; one
      that raises an `Exception` gives the run error and its traceback; any
      other exception escapes. */
  lemma RunEnvelope(globals: Namespace, call: Value -> RunOutcome)
    requires "run" in globals && IsCallable(globals["run"])
    ensures var r := EnvelopeOf(ExecDone(globals), call);
      match call(globals["run"])
      case Returned(result) => r == Some(Envelope(true, Some(result), None, None))
      case RunRaised(e) =>
        r == (if e.isException
              then Some(Envelope(false, None, Some("Error during execution of run(): " + e.className + ": " + e.message), Some(e.traceback)))
              else None)
  {
  }

  /** Every execution starts from a namespace holding only `run_tool`, so
      nothing defined by an earlier execution is visible. */
  lemma FreshNamespaceOnlyRunTool()
    ensures FreshNamespace().Keys == {"run_tool"}
    ensures "run" !in FreshNamespace()
  {
  }
}
