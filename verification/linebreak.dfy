/**
 * `linebreak`: turns transcript text into HTML by two global replacements,
 * first of every "\n\n" by "<p></p>", then of every remaining "\n" by "<br>".
 */
module LineBreak {

  const Paragraph := "<p></p>"
  const Break := "<br>"

  /**
   * `s.replace(/pat/g, rep)` for a pattern without special characters: the
   * matches are taken left to right, and scanning resumes after each match, so
   * matches never overlap.
   */
  function ReplaceAll(s: string, pat: string, rep: string): (r: string)
    requires |pat| > 0
    ensures |pat| == 1 && pat[0] !in rep ==> pat[0] !in r
    decreases |s|
  {
    if |s| < |pat| then s
    else if s[..|pat|] == pat then rep + ReplaceAll(s[|pat|..], pat, rep)
    else [s[0]] + ReplaceAll(s[1..], pat, rep)
  }

  /** The source's two passes; the second leaves no newline behind. */
  function LineBreak(s: string): (r: string)
    ensures '\n' !in r
  {
    ReplaceAll(ReplaceAll(s, "\n\n", Paragraph), "\n", Break)
  }

  /**
   * A single left-to-right reading of the same rewrite: a pair of newlines
   * becomes a paragraph, a newline not followed by another becomes a break,
   * every other character is kept.
   */
  function Markup(s: string): (r: string)
    ensures '\n' !in r
    decreases |s|
  {
    if |s| == 0 then ""
    else if s[0] == '\n' && |s| >= 2 && s[1] == '\n' then Paragraph + Markup(s[2..])
    else if s[0] == '\n' then Break + Markup(s[1..])
    else [s[0]] + Markup(s[1..])
  }

  /** Replacing a single character distributes over concatenation. */
  lemma {:induction false} ReplaceCharDistributes(a: string, b: string, c: char, rep: string)
    ensures ReplaceAll(a + b, [c], rep) == ReplaceAll(a, [c], rep) + ReplaceAll(b, [c], rep)
    decreases |a|
  {
    if |a| == 0 {
      assert a + b == b;
    } else {
      ReplaceCharDistributes(a[1..], b, c, rep);
      assert (a + b)[..1] == a[..1];
      assert (a + b)[1..] == a[1..] + b;
    }
  }

  /** A text without the character is left alone by replacing it. */
  lemma {:induction false} ReplaceCharAbsent(s: string, c: char, rep: string)
    requires c !in s
    ensures ReplaceAll(s, [c], rep) == s
    decreases |s|
  {
    if |s| > 0 {
      ReplaceCharAbsent(s[1..], c, rep);
      assert s[..1] == [s[0]];
      assert [s[0]] + s[1..] == s;
    }
  }

  /** The two passes of the source compute the one-pass rewrite. */
  lemma {:induction false} LineBreakIsMarkup(s: string)
    ensures LineBreak(s) == Markup(s)
    decreases |s|
  {
    var nl: string := "\n";
    if |s| < 2 {
      assert ReplaceAll(s, "\n\n", Paragraph) == s;
      if |s| == 1 {
        assert s[1..] == "";
        assert s[..1] == [s[0]];
      }
    } else if s[0] == '\n' && s[1] == '\n' {
      assert s[..2] == "\n\n";
      var rest := ReplaceAll(s[2..], "\n\n", Paragraph);
      assert ReplaceAll(s, "\n\n", Paragraph) == Paragraph + rest;
      ReplaceCharDistributes(Paragraph, rest, '\n', Break);
      ReplaceCharAbsent(Paragraph, '\n', Break);
      LineBreakIsMarkup(s[2..]);
    } else {
      assert s[..2] != "\n\n" by { assert s[..2][0] == s[0] && s[..2][1] == s[1]; }
      var rest := ReplaceAll(s[1..], "\n\n", Paragraph);
      assert ReplaceAll(s, "\n\n", Paragraph) == [s[0]] + rest;
      ReplaceCharDistributes([s[0]], rest, '\n', Break);
      assert ReplaceAll([s[0]], nl, Break) == if s[0] == '\n' then Break else [s[0]] by {
        assert [s[0]][..1] == [s[0]];
        assert [s[0]][1..] == [];
      }
      LineBreakIsMarkup(s[1..]);
    }
  }

  /** A text without newlines comes back unchanged. */
  lemma LineBreakWithoutNewlines(s: string)
    requires '\n' !in s
    ensures LineBreak(s) == s
  {
    LineBreakIsMarkup(s);
    MarkupNoNewlinePrefix(s, "");
    assert s + "" == s;
  }

  /** A run of three newlines is a paragraph followed by a break: pairs are taken first, left to right. */
  lemma LineBreakPairsFirst(a: string, b: string)
    requires '\n' !in a && '\n' !in b
    ensures LineBreak(a + "\n\n\n" + b) == a + Paragraph + Break + b
  {
    var t := "\n\n\n" + b;
    MarkupNoNewlinePrefix(a, t);
    assert t[0] == '\n' && t[1] == '\n';
    assert t[2..] == "\n" + b;
    assert ("\n" + b)[1..] == b;
    assert |"\n" + b| < 2 || ("\n" + b)[1] != '\n' by {
      if |b| > 0 { assert ("\n" + b)[1] == b[0]; }
    }
    assert a + "\n\n\n" + b == a + t;
    LineBreakIsMarkup(a + t);
    MarkupNoNewlinePrefix(b, "");
    assert b + "" == b;
  }

  /** A prefix without newlines passes through the one-pass rewrite unchanged. */
  lemma {:induction false} MarkupNoNewlinePrefix(a: string, t: string)
    requires '\n' !in a
    ensures Markup(a + t) == a + Markup(t)
    decreases |a|
  {
    if |a| == 0 {
      assert a + t == t;
    } else {
      var rest := a[1..];
      assert '\n' !in rest by {
        forall i | 0 <= i < |rest| ensures rest[i] != '\n' { assert rest[i] == a[i + 1]; }
      }
      calc {
        Markup(a + t);
        { assert a + t == [a[0]] + (rest + t); }
        Markup([a[0]] + (rest + t));
        { MarkupKeepsCharacter(a[0], rest + t); }
        [a[0]] + Markup(rest + t);
        { MarkupNoNewlinePrefix(rest, t); }
        [a[0]] + (rest + Markup(t));
        { assert [a[0]] + rest == a; }
        a + Markup(t);
      }
    }
  }

  /** A character other than a newline is copied by the one-pass rewrite. */
  lemma MarkupKeepsCharacter(c: char, t: string)
    requires c != '\n'
    ensures Markup([c] + t) == [c] + Markup(t)
  {
    assert ([c] + t)[1..] == t;
  }
}
