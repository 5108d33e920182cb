/** The parsing stage: whitespace normalisation and a length bound on the scraped article
    (agents/parser.py). */
module Parser {
  import opened Common
  import opened Text
  import opened PipelineState

  /** `clean_text`'s default `max_len`. */
  const DEFAULT_MAX_LEN := 8000
  /** The placeholder `textwrap.shorten` appends when it has to cut. */
  const PLACEHOLDER := "…"

  /** Every whitespace character is a plain space and no two of them are adjacent. */
  predicate SingleSpaced(t: string) {
    && (forall i :: 0 <= i < |t| && IsSpace(t[i]) ==> t[i] == ' ')
    && (forall i :: 0 <= i < |t| - 1 ==> !(IsSpace(t[i]) && IsSpace(t[i + 1])))
  }

  /** The characters of `t` that are not whitespace, in order. */
  function Visible(t: string): string {
    if t == [] then [] else (if IsSpace(t[0]) then [] else [t[0]]) + Visible(t[1..])
  }

  /** `re.sub(r"\s+", " ", raw)`: every maximal run of whitespace becomes one space. */
  function Collapse(s: string): (r: string)
    decreases |s|
    ensures SingleSpaced(r)
    ensures r == [] <==> s == []
    ensures r != [] ==> (IsSpace(r[0]) <==> IsSpace(s[0]))
    ensures r != [] ==> (IsSpace(r[|r| - 1]) <==> IsSpace(s[|s| - 1]))
  {
    if s == [] then []
    else if IsSpace(s[0]) then
      var rest := LStrip(s);
      assert rest != [] ==> rest[|rest| - 1] == s[|s| - 1];
      assert rest == [] ==> AllSpace(s);
      " " + Collapse(rest)
    else
      [s[0]] + Collapse(s[1..])
  }

  lemma {:induction false} VisibleAppend(a: string, b: string)
    ensures Visible(a + b) == Visible(a) + Visible(b)
  {
    if a == [] {
      assert a + b == b;
    } else {
      assert (a + b)[0] == a[0] && (a + b)[1..] == a[1..] + b;
      VisibleAppend(a[1..], b);
    }
  }

  lemma {:induction false} VisibleOfSpaces(a: string)
    requires AllSpace(a)
    ensures Visible(a) == []
  {
    if a != [] {
      VisibleOfSpaces(a[1..]);
    }
  }

  /** Collapsing whitespace keeps every other character, in order. */
  lemma {:induction false} CollapseKeepsVisible(s: string)
    ensures Visible(Collapse(s)) == Visible(s)
    decreases |s|
  {
    if s == [] {
    } else if IsSpace(s[0]) {
      var rest := LStrip(s);
      var k := |s| - |rest|;
      assert |rest| < |s| by { assert rest == [] || rest[0] != s[0]; }
      CollapseKeepsVisible(rest);
      CollapseAtSpace(s);
      LStripSplits(s);
      SpaceRunInvisible(s[..k], rest, Collapse(rest));
    } else {
      CollapseKeepsVisible(s[1..]);
      VisibleCharKept(s);
    }
  }

  /** A run of whitespace collapses to one space followed by the collapsed rest. */
  lemma CollapseAtSpace(s: string)
    requires s != [] && IsSpace(s[0])
    ensures Collapse(s) == " " + Collapse(LStrip(s))
  {
  }

  /** A run of whitespace on its own collapses to a single space. */
  lemma CollapseOfSpaces(w: string)
    requires w != [] && AllSpace(w)
    ensures Collapse(w) == " "
  {
  }

  /** A single character that is not whitespace is kept as it is. */
  lemma CollapseOfVisibleChar(c: char)
    requires !IsSpace(c)
    ensures Collapse([c]) == [c]
  {
    assert [c][1..] == [];
  }

  /** A maximal run of whitespace, followed by the end or a visible character, becomes one space
      and the rest is collapsed on its own. */
  lemma CollapseSpaceRun(w: string, b: string)
    requires w != [] && AllSpace(w) && (b == [] || !IsSpace(b[0]))
    ensures Collapse(w + b) == " " + Collapse(b)
  {
    LStripOfSpacesThen(w, b);
    CollapseAtSpace(w + b);
  }

  lemma {:induction false} LStripOfSpacesThen(w: string, b: string)
    requires AllSpace(w) && (b == [] || !IsSpace(b[0]))
    ensures LStrip(w + b) == b
    decreases |w|
  {
    if w == [] {
      assert w + b == b;
    } else {
      assert (w + b)[0] == w[0] && (w + b)[1..] == w[1..] + b;
      assert AllSpace(w[1..]) by {
        forall i | 0 <= i < |w| - 1 ensures IsSpace(w[1..][i]) { assert w[1..][i] == w[i + 1]; }
      }
      LStripOfSpacesThen(w[1..], b);
    }
  }

  /** Cutting after a visible character does not change the collapse: no run of whitespace
      spans the cut, so each side collapses on its own. */
  lemma {:induction false} CollapseAppend(a: string, b: string)
    requires a != [] && !IsSpace(a[|a| - 1])
    ensures Collapse(a + b) == Collapse(a) + Collapse(b)
    decreases |a|
  {
    if IsSpace(a[0]) {
      LStripKeepsLast(a);
      CollapseAppend(LStrip(a), b);
      CollapseAppendAtSpace(a, b);
    } else if |a| == 1 {
      TailOfAppend(a, b);
      CollapseAtChar(a + b);
      CollapseOfVisibleChar(a[0]);
      assert a == [a[0]];
    } else {
      CollapseAppend(a[1..], b);
      CollapseAppendAtChar(a, b);
    }
  }

  /** The step of `CollapseAppend` at a leading run of whitespace. */
  lemma CollapseAppendAtSpace(a: string, b: string)
    requires a != [] && IsSpace(a[0]) && !IsSpace(a[|a| - 1])
    requires Collapse(LStrip(a) + b) == Collapse(LStrip(a)) + Collapse(b)
    ensures Collapse(a + b) == Collapse(a) + Collapse(b)
  {
    LStripAppend(a, b);
    CollapseAtSpace(a);
    CollapseAtSpace(a + b);
    ConcatAssoc(" ", Collapse(LStrip(a)), Collapse(b));
  }

  /** The step of `CollapseAppend` at a leading visible character. */
  lemma CollapseAppendAtChar(a: string, b: string)
    requires |a| > 1 && !IsSpace(a[0])
    requires Collapse(a[1..] + b) == Collapse(a[1..]) + Collapse(b)
    ensures Collapse(a + b) == Collapse(a) + Collapse(b)
  {
    TailOfAppend(a, b);
    CollapseAtChar(a);
    CollapseAtChar(a + b);
    ConcatAssoc([a[0]], Collapse(a[1..]), Collapse(b));
  }

  /** A visible character is kept, followed by the collapsed rest. */
  lemma CollapseAtChar(s: string)
    requires s != [] && !IsSpace(s[0])
    ensures Collapse(s) == [s[0]] + Collapse(s[1..])
  {
  }

  lemma TailOfAppend(a: string, b: string)
    requires a != []
    ensures (a + b)[0] == a[0] && (a + b)[1..] == a[1..] + b
  {
  }

  lemma ConcatAssoc(x: string, y: string, z: string)
    ensures x + (y + z) == (x + y) + z
  {
  }

  /** `lstrip()` of a string that ends in a visible character drops something and keeps that
      last character. */
  lemma LStripKeepsLast(a: string)
    requires a != [] && IsSpace(a[0]) && !IsSpace(a[|a| - 1])
    ensures var r := LStrip(a); r != [] && |r| < |a| && r[|r| - 1] == a[|a| - 1]
  {
  }

  lemma {:induction false} LStripAppend(a: string, b: string)
    requires a != [] && !IsSpace(a[|a| - 1])
    ensures LStrip(a + b) == LStrip(a) + b
    decreases |a|
  {
    assert (a + b)[0] == a[0];
    if IsSpace(a[0]) {
      assert (a + b)[1..] == a[1..] + b;
      LStripAppend(a[1..], b);
    }
  }

  /** Neither a run of whitespace nor the single space that replaces it is visible. */
  lemma SpaceRunInvisible(run: string, rest: string, collapsed: string)
    requires AllSpace(run)
    ensures Visible(run + rest) == Visible(rest)
    ensures Visible(" " + collapsed) == Visible(collapsed)
  {
    VisibleAppend(run, rest);
    VisibleOfSpaces(run);
    VisibleAppend(" ", collapsed);
  }

  /** The inductive step at a visible character: it is kept as it is. */
  lemma VisibleCharKept(s: string)
    requires s != [] && !IsSpace(s[0])
    requires Visible(Collapse(s[1..])) == Visible(s[1..])
    ensures Visible(Collapse(s)) == Visible(s)
  {
    assert Collapse(s) == [s[0]] + Collapse(s[1..]);
    assert Visible(s) == [s[0]] + Visible(s[1..]);
    VisibleAppend([s[0]], Collapse(s[1..]));
  }

  lemma {:induction false} VisibleOfSlice(s: string, a: nat, b: nat)
    requires a <= b <= |s| && AllSpace(s[..a]) && AllSpace(s[b..])
    ensures Visible(s[a..b]) == Visible(s)
  {
    assert s == s[..a] + s[a..b] + s[b..];
    VisibleAppend(s[..a] + s[a..b], s[b..]);
    VisibleAppend(s[..a], s[a..b]);
    VisibleOfSpaces(s[..a]);
    VisibleOfSpaces(s[b..]);
  }

  /** A string with something other than whitespace in it keeps something after `strip()`. */
  lemma VisibleSurvivesStrip(s: string)
    ensures Visible(Strip(s)) == Visible(s)
  {
    var r := Strip(s);
    var a := StripStart(s);
    StripCore(s);
    VisibleOfSlice(s, a, a + |r|);
  }

  /** The longest cut `p <= limit` that ends at a word boundary (`text[p]` is a space), or 0. */
  function CutPoint(text: string, limit: nat): (p: nat)
    requires limit < |text|
    ensures p <= limit
    ensures p == 0 || IsSpace(text[p])
    ensures forall q :: p < q <= limit ==> !IsSpace(text[q])
  {
    if limit == 0 || IsSpace(text[limit]) then limit else CutPoint(text, limit - 1)
  }

  /** `textwrap.shorten(text, width, placeholder="…")` on text that is already single-spaced and
      stripped: unchanged when it fits, otherwise the longest run of whole words that leaves room
      for the placeholder, followed by the placeholder. */
  function Shorten(text: string, width: nat): (r: string)
    requires width >= 1
    ensures |r| <= width
    ensures |text| <= width ==> r == text
    ensures text != [] ==> r != []
    ensures |text| > width ==> r[|r| - 1..] == PLACEHOLDER && StartsWith(text, r[..|r| - 1])
  {
    if |text| <= width then text
    else
      var kept := RStrip(text[..CutPoint(text, width - 1)]);
      assert kept + PLACEHOLDER == kept + ['…'];
      kept + PLACEHOLDER
  }

  /** `clean_text(raw, max_len=maxLen)`; `textwrap` refuses a width below 1 with `ValueError`. */
  function CleanText(raw: string, maxLen: int): (r: Outcome<string>)
    ensures r.Ok? <==> maxLen >= 1
    ensures r.Ok? ==> |r.value| <= maxLen
    ensures r.Ok? ==> (r.value != [] <==> Visible(raw) != [])
    ensures r.Ok? && |Strip(Collapse(raw))| <= maxLen ==>
              r.value == Strip(Collapse(raw)) && SingleSpaced(r.value) && Trimmed(r.value)
              && Visible(r.value) == Visible(raw)
  {
    if maxLen < 1 then Raised("invalid width " + IntToString(maxLen) + " (must be > 0)")
    else
      var text := Strip(Collapse(raw));
      CollapseKeepsVisible(raw);
      VisibleSurvivesStrip(Collapse(raw));
      assert text == [] <==> Visible(text) == [] by { VisibleEmpty(text); }
      StripKeepsSingleSpaced(Collapse(raw));
      Ok(Shorten(text, maxLen))
  }

  lemma VisibleEmpty(t: string)
    requires Trimmed(t)
    ensures t == [] <==> Visible(t) == []
  {
    if t != [] {
      assert Visible(t) == [t[0]] + Visible(t[1..]);
    }
  }

  lemma StripKeepsSingleSpaced(s: string)
    requires SingleSpaced(s)
    ensures SingleSpaced(Strip(s))
  {
    var r := Strip(s);
    var a := StripStart(s);
    StripCore(s);
    forall i | 0 <= i < |r| && IsSpace(r[i])
      ensures r[i] == ' '
    {
      assert r[i] == s[a + i];
    }
    forall i | 0 <= i < |r| - 1
      ensures !(IsSpace(r[i]) && IsSpace(r[i + 1]))
    {
      assert r[i] == s[a + i] && r[i + 1] == s[a + i + 1];
    }
  }

  /** `parser_node`: the context is the cleaned article; a missing article is a `KeyError`. */
  function ParserNode(s: State): (r: Outcome<State>)
    ensures r.Ok? <==> s.article.Some?
    ensures r.Ok? ==> r.value == s.(context := Some(CleanText(s.article.value, DEFAULT_MAX_LEN).value))
    ensures r.Ok? ==> |r.value.context.value| <= DEFAULT_MAX_LEN
  {
    match s.article
    case None => Raised(KeyErrorText("article"))
    case Some(article) => Ok(s.(context := Some(CleanText(article, DEFAULT_MAX_LEN).value)))
  }
}
