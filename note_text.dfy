/**
 * `NoteTaker._preprocess_text`: three regular-expression substitutions and a
 * strip, applied to raw input text before it is sent for note taking. Each
 * substitution is written out as the left-to-right scan `re.sub` performs.
 */
module NoteText {
  import opened Wrappers
  import opened Text

  // ---------------------------------------------------------------------------
  // Line 24: re.sub(r'\n\s*\n', '\n\n', text)
  // ---------------------------------------------------------------------------

  /** The last newline in `s[lo..hi]`, if any. */
  function LastNewline(s: string, lo: nat, hi: nat): (r: Option<nat>)
    requires lo <= hi <= |s|
    ensures r.Some? ==> lo <= r.value < hi && s[r.value] == '\n'
    ensures r.Some? ==> forall k :: r.value < k < hi ==> s[k] != '\n'
    ensures r.None? ==> forall k :: lo <= k < hi ==> s[k] != '\n'
    decreases hi - lo
  {
    if lo == hi then None
    else if s[hi - 1] == '\n' then Some(hi - 1)
    else LastNewline(s, lo, hi - 1)
  }

  /** The end of the whitespace run that starts at `i`. */
  function RunEnd(s: string, i: nat): (j: nat)
    requires i <= |s|
    ensures i <= j <= |s| && AllSpace(s[i..j]) && (j == |s| || !IsSpace(s[j]))
    decreases |s| - i
  {
    if i < |s| && IsSpace(s[i]) then RunEnd(s, i + 1) else i
  }

  /** A match of `\n\s*\n` at the head of `s` is a newline, then greedy
      whitespace backed off to the last newline of that run: it ends just past
      that newline. `None` when the run holds no second newline. */
  function BlankLineMatch(s: string): (r: Option<nat>)
    requires s != [] && s[0] == '\n'
    ensures r.Some? ==> 2 <= r.value <= |s| && AllSpace(s[..r.value])
    ensures r.Some? ==> s[r.value - 1] == '\n' && forall k :: r.value <= k < RunEnd(s, 1) ==> s[k] != '\n'
    ensures r.None? <==> forall k :: 1 <= k < RunEnd(s, 1) ==> s[k] != '\n'
  {
    match LastNewline(s, 1, RunEnd(s, 1))
    case Some(k) =>
      AllSpaceWiden(s, RunEnd(s, 1), k + 1);
      Some(k + 1)
    case None => None
  }

  lemma AllSpaceWiden(s: string, r: nat, e: nat)
    requires 1 <= e <= r <= |s| && s != [] && IsSpace(s[0]) && AllSpace(s[1..r])
    ensures AllSpace(s[..e])
  {
    forall m | 0 <= m < e ensures IsSpace(s[..e][m]) {
      if m > 0 {
        assert s[..e][m] == s[1..r][m - 1];
      }
    }
  }

  function JoinBlankLines(s: string): (r: string)
    decreases |s|
  {
    if s == [] then []
    else if s[0] == '\n' && BlankLineMatch(s).Some? then
      "\n\n" + JoinBlankLines(s[BlankLineMatch(s).value..])
    else [s[0]] + JoinBlankLines(s[1..])
  }

  // ---------------------------------------------------------------------------
  // Line 26: re.sub(r'(?<!\n)\n(?!\n)', ' ', text)
  // ---------------------------------------------------------------------------

  /** A newline with no newline on either side becomes a space. */
  function SpaceLoneNewlines(s: string): (r: string)
    ensures |r| == |s|
  {
    seq(|s|, i requires 0 <= i < |s| =>
      if s[i] == '\n' && (i == 0 || s[i - 1] != '\n') && (i + 1 == |s| || s[i + 1] != '\n')
      then ' ' else s[i])
  }

  // ---------------------------------------------------------------------------
  // Line 28: re.sub(r'\s+', ' ', text), and line 30: strip()
  // ---------------------------------------------------------------------------

  /** Every maximal whitespace run becomes a single space. */
  function Collapse(s: string): (r: string)
    decreases |s|
  {
    if s == [] then []
    else if IsSpace(s[0]) then " " + Collapse(StripLeft(s[1..]))
    else [s[0]] + Collapse(s[1..])
  }

  /** `_preprocess_text`. */
  function Preprocess(text: string): string {
    Strip(Collapse(SpaceLoneNewlines(JoinBlankLines(text))))
  }

  // ---------------------------------------------------------------------------
  // The first two substitutions only turn whitespace into whitespace, so the
  // third one erases their effect.
  // ---------------------------------------------------------------------------

  lemma StripLeftSpaces(w: string, t: string)
    requires AllSpace(w)
    ensures StripLeft(w + t) == StripLeft(t)
  {
    if w != [] {
      assert (w + t)[1..] == w[1..] + t;
      StripLeftSpaces(w[1..], t);
    } else {
      assert w + t == t;
    }
  }

  /** Line 28 on a string with a known first character. */
  lemma CollapseCons(c: char, x: string)
    ensures Collapse([c] + x) == if IsSpace(c) then " " + Collapse(StripLeft(x)) else [c] + Collapse(x)
  {
    assert ([c] + x)[0] == c;
    assert ([c] + x)[1..] == x;
  }

  /** `lstrip()` on a string with a known first character. */
  lemma StripLeftCons(c: char, x: string)
    ensures StripLeft([c] + x) == if IsSpace(c) then StripLeft(x) else [c] + x
  {
    assert ([c] + x)[0] == c;
    assert ([c] + x)[1..] == x;
  }

  lemma SplitAt(s: string, e: nat)
    requires e <= |s|
    ensures s == s[..e] + s[e..]
  {
  }

  lemma ConsSplit(w: string, t: string)
    requires w != []
    ensures w + t == [w[0]] + (w[1..] + t)
  {
  }

  /** One step of the joint induction below, for a blank-line match `w`
      replaced by two newlines in front of `x`. */
  lemma JoinStepBlank(w: string, t: string, x: string)
    requires |w| >= 2 && w[0] == '\n' && AllSpace(w)
    requires Collapse(StripLeft(x)) == Collapse(StripLeft(t))
    ensures Collapse("\n\n" + x) == Collapse(w + t)
    ensures Collapse(StripLeft("\n\n" + x)) == Collapse(StripLeft(w + t))
  {
    StripLeftSpaces("\n\n", x);
    StripLeftSpaces(w, t);
    CollapseNewlines(x);
    CollapseSpaceRun(w, t);
  }

  lemma CollapseNewlines(x: string)
    ensures Collapse("\n\n" + x) == " " + Collapse(StripLeft(x))
  {
    ConsSplit("\n\n", x);
    CollapseCons('\n', ['\n'] + x);
    StripLeftCons('\n', x);
  }

  lemma CollapseSpaceRun(w: string, t: string)
    requires w != [] && AllSpace(w)
    ensures Collapse(w + t) == " " + Collapse(StripLeft(t))
  {
    ConsSplit(w, t);
    CollapseCons(w[0], w[1..] + t);
    StripLeftSpaces(w[1..], t);
  }

  /** One step of the joint induction below, for a character `c` copied in
      front of `x`. */
  lemma JoinStepCopy(c: char, t: string, x: string)
    requires Collapse(x) == Collapse(t)
    requires Collapse(StripLeft(x)) == Collapse(StripLeft(t))
    ensures Collapse([c] + x) == Collapse([c] + t)
    ensures Collapse(StripLeft([c] + x)) == Collapse(StripLeft([c] + t))
  {
    CollapseCons(c, x);
    CollapseCons(c, t);
    StripLeftCons(c, x);
    StripLeftCons(c, t);
  }

  lemma JoinBlankAt(s: string, e: nat, x: string)
    requires 2 <= e <= |s| && s[0] == '\n' && AllSpace(s[..e])
    requires Collapse(StripLeft(x)) == Collapse(StripLeft(s[e..]))
    ensures Collapse("\n\n" + x) == Collapse(s)
    ensures Collapse(StripLeft("\n\n" + x)) == Collapse(StripLeft(s))
  {
    SplitAt(s, e);
    JoinStepBlank(s[..e], s[e..], x);
  }

  lemma JoinCopyAt(s: string, x: string)
    requires s != []
    requires Collapse(x) == Collapse(s[1..])
    requires Collapse(StripLeft(x)) == Collapse(StripLeft(s[1..]))
    ensures Collapse([s[0]] + x) == Collapse(s)
    ensures Collapse(StripLeft([s[0]] + x)) == Collapse(StripLeft(s))
  {
    SplitAt(s, 1);
    assert s[..1] == [s[0]];
    JoinStepCopy(s[0], s[1..], x);
  }

  /** Joint induction: collapsing the output of line 24 gives the same as
      collapsing its input, also after dropping leading whitespace. */
  lemma {:induction false} JoinBlankLinesInvisible(s: string)
    ensures Collapse(JoinBlankLines(s)) == Collapse(s)
    ensures Collapse(StripLeft(JoinBlankLines(s))) == Collapse(StripLeft(s))
    decreases |s|
  {
    if s == [] {
    } else if s[0] == '\n' && BlankLineMatch(s).Some? {
      var e := BlankLineMatch(s).value;
      var x := JoinBlankLines(s[e..]);
      assert JoinBlankLines(s) == "\n\n" + x;
      JoinBlankLinesInvisible(s[e..]);
      JoinBlankAt(s, e, x);
    } else {
      var x := JoinBlankLines(s[1..]);
      assert JoinBlankLines(s) == [s[0]] + x;
      JoinBlankLinesInvisible(s[1..]);
      JoinCopyAt(s, x);
    }
  }

  /** Two strings with whitespace in the same places and the same other
      characters. */
  predicate SameShape(a: string, b: string) {
    |a| == |b| && forall i :: 0 <= i < |a| ==>
      (IsSpace(a[i]) <==> IsSpace(b[i])) && (!IsSpace(a[i]) ==> a[i] == b[i])
  }

  lemma {:induction false} StripLeftSameShape(a: string, b: string)
    requires SameShape(a, b)
    ensures SameShape(StripLeft(a), StripLeft(b))
    decreases |a|
  {
    if a != [] && IsSpace(a[0]) {
      assert SameShape(a[1..], b[1..]);
      StripLeftSameShape(a[1..], b[1..]);
    }
  }

  lemma {:induction false} CollapseSameShape(a: string, b: string)
    requires SameShape(a, b)
    ensures Collapse(a) == Collapse(b)
    decreases |a|
  {
    if a != [] {
      assert SameShape(a[1..], b[1..]);
      if IsSpace(a[0]) {
        StripLeftSameShape(a[1..], b[1..]);
        CollapseSameShape(StripLeft(a[1..]), StripLeft(b[1..]));
      } else {
        CollapseSameShape(a[1..], b[1..]);
      }
    }
  }

  /** The net effect of `_preprocess_text` is fixed by line 28 and the strip. */
  lemma PreprocessIsCollapseStrip(text: string)
    ensures Preprocess(text) == Strip(Collapse(text))
  {
    var j := JoinBlankLines(text);
    assert SameShape(j, SpaceLoneNewlines(j));
    CollapseSameShape(j, SpaceLoneNewlines(j));
    JoinBlankLinesInvisible(text);
  }

  // ---------------------------------------------------------------------------
  // What the output looks like
  // ---------------------------------------------------------------------------

  /** Every whitespace character is a plain space and none is followed by
      another whitespace character. */
  predicate SingleSpaced(s: string) {
    forall i :: 0 <= i < |s| && IsSpace(s[i]) ==> s[i] == ' ' && (i + 1 < |s| ==> !IsSpace(s[i + 1]))
  }

  lemma SingleSpacedCons(c: char, t: string)
    requires SingleSpaced(t)
    requires IsSpace(c) ==> c == ' ' && (t == [] || !IsSpace(t[0]))
    ensures SingleSpaced([c] + t)
  {
    var u := [c] + t;
    forall i | 0 <= i < |u| && IsSpace(u[i])
      ensures u[i] == ' ' && (i + 1 < |u| ==> !IsSpace(u[i + 1]))
    {
      if i > 0 {
        assert u[i] == t[i - 1];
        if i + 1 < |u| {
          assert u[i + 1] == t[i];
        }
      }
    }
  }

  lemma CollapseFirst(s: string)
    ensures Collapse(s) != [] ==> (IsSpace(Collapse(s)[0]) <==> IsSpace(s[0]))
    ensures Collapse(s) == [] <==> s == []
  {
  }

  lemma {:induction false} CollapseSingleSpaced(s: string)
    ensures SingleSpaced(Collapse(s))
    decreases |s|
  {
    if s != [] {
      if IsSpace(s[0]) {
        var t := StripLeft(s[1..]);
        CollapseSingleSpaced(t);
        CollapseFirst(t);
        SingleSpacedCons(' ', Collapse(t));
      } else {
        CollapseSingleSpaced(s[1..]);
        SingleSpacedCons(s[0], Collapse(s[1..]));
      }
    }
  }

  lemma {:induction false} CollapseNonSpace(s: string)
    ensures NonSpace(Collapse(s)) == NonSpace(s)
    decreases |s|
  {
    if s != [] {
      if IsSpace(s[0]) {
        var t := StripLeft(s[1..]);
        CollapseNonSpace(t);
        StripLeftNonSpace(s[1..]);
        NonSpaceAppend(" ", Collapse(t));
      } else {
        CollapseNonSpace(s[1..]);
        NonSpaceAppend([s[0]], Collapse(s[1..]));
      }
    }
  }

  lemma SingleSpacedSlice(s: string, lo: nat, hi: nat)
    requires lo <= hi <= |s| && SingleSpaced(s)
    ensures SingleSpaced(s[lo..hi])
  {
    var t := s[lo..hi];
    forall i | 0 <= i < |t| && IsSpace(t[i])
      ensures t[i] == ' ' && (i + 1 < |t| ==> !IsSpace(t[i + 1]))
    {
      assert t[i] == s[lo + i];
      if i + 1 < |t| {
        assert t[i + 1] == s[lo + i + 1];
      }
    }
  }

  /** Stripping keeps a single-spaced string single-spaced. */
  lemma StripSingleSpaced(c: string)
    requires SingleSpaced(c)
    ensures SingleSpaced(Strip(c))
  {
    StripOccurs(c);
    var k := |c| - |StripLeft(c)|;
    assert Strip(c) == c[k..k + |Strip(c)|];
    SingleSpacedSlice(c, k, k + |Strip(c)|);
  }

  /** The output has no whitespace at either end, only single plain spaces
      inside, and exactly the input's non-whitespace characters in order. */
  lemma PreprocessShape(text: string)
    ensures var r := Preprocess(text);
      && Trimmed(r)
      && SingleSpaced(r)
      && NonSpace(r) == NonSpace(text)
  {
    PreprocessIsCollapseStrip(text);
    var c := Collapse(text);
    var r := Strip(c);
    assert Trimmed(r) by {
      StripEnds(c);
    }
    assert SingleSpaced(r) by {
      CollapseSingleSpaced(text);
      StripSingleSpaced(c);
    }
    assert NonSpace(r) == NonSpace(text) by {
      CollapseNonSpace(text);
      StripNonSpace(c);
    }
  }

  lemma {:induction false} CollapseFixed(s: string)
    requires SingleSpaced(s)
    ensures Collapse(s) == s
    decreases |s|
  {
    if s != [] {
      SingleSpacedSlice(s, 1, |s|);
      if IsSpace(s[0]) {
        assert StripLeft(s[1..]) == s[1..];
      }
      CollapseFixed(s[1..]);
    }
  }

  /** Preprocessing is idempotent. */
  lemma PreprocessIdempotent(text: string)
    ensures Preprocess(Preprocess(text)) == Preprocess(text)
  {
    var r := Preprocess(text);
    PreprocessShape(text);
    PreprocessIsCollapseStrip(r);
    CollapseFixed(r);
    StripTrimmed(r);
  }
}
