/**
 * The fragment of Jinja2 templating that the prompt builder uses: a template
 * source is literal text interleaved with `{{name}}` substitutions and nothing
 * else (no blocks, filters, comments or whitespace control). `Compile` is the
 * `Template(source)` constructor with Jinja's default
 * `keep_trailing_newline=False`, and `Render` is `.render(**env)` with the
 * default `Undefined` (an unknown name renders as the empty string) and no
 * autoescaping.
 */
module Template {

  /** A piece of a template source: literal text, or a `{{name}}` substitution. */
  datatype Segment = Text(text: string) | Hole(name: string)

  /** The source text a segment is written as. */
  function SegmentSource(s: Segment): string {
    match s
    case Text(t) => t
    case Hole(n) => "{{" + n + "}}"
  }

  /** The source text of a whole template. */
  function Source(t: seq<Segment>): string {
    if t == [] then "" else SegmentSource(t[0]) + Source(t[1..])
  }

  /** Adjacent pieces of literal text are kept apart, but no piece is empty. */
  predicate WellFormed(t: seq<Segment>) {
    forall i :: 0 <= i < |t| ==> t[i] != Text("")
  }

  predicate EndsWithNewline(s: string) {
    |s| > 0 && s[|s| - 1] == '\n'
  }

  lemma {:induction false} SourceAppend(a: seq<Segment>, b: seq<Segment>)
    ensures Source(a + b) == Source(a) + Source(b)
  {
    if a == [] {
      assert a + b == b;
    } else {
      assert (a + b)[1..] == a[1..] + b;
      SourceAppend(a[1..], b);
    }
  }

  /** In a well-formed template the source ends in a newline exactly when its last piece is text ending in one. */
  lemma SourceEndsLikeLastSegment(t: seq<Segment>)
    requires WellFormed(t) && t != []
    ensures EndsWithNewline(Source(t)) <==> t[|t| - 1].Text? && EndsWithNewline(t[|t| - 1].text)
  {
    var init, last := t[..|t| - 1], t[|t| - 1];
    assert t == init + [last];
    SourceAppend(init, [last]);
    assert Source([last]) == SegmentSource(last);
    assert last.Hole? ==> SegmentSource(last)[|SegmentSource(last)| - 1] == '}';
  }

  /**
   * Jinja's `Template(source)` with `keep_trailing_newline=False`: a single
   * trailing newline of the source is dropped before the template is parsed.
   */
  function Compile(t: seq<Segment>): seq<Segment> {
    if t != [] && t[|t| - 1].Text? && EndsWithNewline(t[|t| - 1].text) then
      var kept := t[|t| - 1].text[..|t[|t| - 1].text| - 1];
      if kept == [] then t[..|t| - 1] else t[..|t| - 1] + [Text(kept)]
    else t
  }

  /** Compiling keeps a template well formed. */
  lemma CompileWellFormed(t: seq<Segment>)
    requires WellFormed(t)
    ensures WellFormed(Compile(t))
  {
    if t != [] && t[|t| - 1].Text? && EndsWithNewline(t[|t| - 1].text) {
      var kept := t[|t| - 1].text[..|t[|t| - 1].text| - 1];
      var r := Compile(t);
      forall i | 0 <= i < |r| ensures r[i] != Text("") {
        if i < |t| - 1 {
          assert r[i] == t[i];
        }
      }
    }
  }

  /** Replacing the last piece of a template changes the source only in the part that piece contributes. */
  lemma SourceReplaceLast(init: seq<Segment>, last: Segment)
    ensures Source(init + [last]) == Source(init) + SegmentSource(last)
  {
    SourceAppend(init, [last]);
    assert Source([last]) == SegmentSource(last) + Source([]);
  }

  /** The sources of a template ending in `kept` plus a newline, and of the same template without that newline. */
  lemma SourceWithoutLastNewline(init: seq<Segment>, kept: string)
    ensures Source(init + [Text(kept + "\n")]) == Source(init) + kept + "\n"
    ensures Source(if kept == [] then init else init + [Text(kept)]) == Source(init) + kept
  {
    SourceReplaceLast(init, Text(kept + "\n"));
    ConcatAssoc(Source(init), kept, "\n");
    if kept != [] {
      SourceReplaceLast(init, Text(kept));
    } else {
      assert Source(init) + kept == Source(init);
    }
  }

  /** Compiling a template whose last piece is text ending in a newline removes just that newline. */
  lemma CompileStripsLastText(t: seq<Segment>)
    requires t != [] && t[|t| - 1].Text? && EndsWithNewline(t[|t| - 1].text)
    ensures Source(Compile(t)) + "\n" == Source(t)
  {
    var init, text := t[..|t| - 1], t[|t| - 1].text;
    var kept := text[..|text| - 1];
    assert t == init + [Text(kept + "\n")] by {
      assert text == kept + "\n";
    }
    assert Compile(t) == if kept == [] then init else init + [Text(kept)];
    SourceWithoutLastNewline(init, kept);
  }

  /** Compiling drops exactly one trailing newline of the source and keeps the rest as written. */
  lemma CompileDropsTrailingNewline(t: seq<Segment>)
    requires WellFormed(t)
    ensures EndsWithNewline(Source(t)) ==> Source(Compile(t)) + "\n" == Source(t)
    ensures !EndsWithNewline(Source(t)) ==> Compile(t) == t
  {
    if t != [] {
      SourceEndsLikeLastSegment(t);
      if t[|t| - 1].Text? && EndsWithNewline(t[|t| - 1].text) {
        CompileStripsLastText(t);
      }
    }
  }

  /** The value a name renders as: its binding, or the empty string when unbound. */
  function Lookup(env: map<string, string>, name: string): string {
    if name in env then env[name] else ""
  }

  function RenderSegment(s: Segment, env: map<string, string>): string {
    match s
    case Text(t) => t
    case Hole(n) => Lookup(env, n)
  }

  /** A template made of literal text only. */
  predicate HoleFree(t: seq<Segment>) {
    forall i :: 0 <= i < |t| ==> t[i].Text?
  }

  /**
   * `.render(**env)`: text is copied, each substitution is replaced by its
   * value verbatim, left to right; a template without substitutions renders
   * as its own source.
   */
  function Render(t: seq<Segment>, env: map<string, string>): (r: string)
    ensures HoleFree(t) ==> r == Source(t)
  {
    if t == [] then "" else RenderSegment(t[0], env) + Render(t[1..], env)
  }

  /** A single piece renders as that piece. */
  lemma RenderSingle(s: Segment, env: map<string, string>)
    ensures Render([s], env) == RenderSegment(s, env)
  {
    assert [s][1..] == [];
  }

  /** Rendering goes piece by piece, left to right: the rendering of two templates one after the other is the two renderings one after the other. */
  lemma {:induction false} RenderAppend(a: seq<Segment>, b: seq<Segment>, env: map<string, string>)
    ensures Render(a + b, env) == Render(a, env) + Render(b, env)
  {
    if a == [] {
      assert a + b == b;
    } else {
      assert (a + b)[1..] == a[1..] + b;
      RenderAppend(a[1..], b, env);
      ConcatAssoc(RenderSegment(a[0], env), Render(a[1..], env), Render(b, env));
    }
  }

  /** A single piece has the source of that piece. */
  lemma SourceSingle(s: Segment)
    ensures Source([s]) == SegmentSource(s)
  {
    assert [s][1..] == [];
  }

  /** Concatenation of text regroups freely. */
  lemma ConcatAssoc(a: string, b: string, c: string)
    ensures a + (b + c) == (a + b) + c
  {
  }

  /** A text ends like its last non-empty part. */
  lemma LastOfConcat(a: string, b: string)
    requires |b| > 0
    ensures (a + b)[|a + b| - 1] == b[|b| - 1]
  {
  }

  /** The two halves of a concatenation can be cut back out of it. */
  lemma ConcatSplit(a: string, b: string)
    ensures (a + b)[..|a|] == a && (a + b)[|a|..] == b
  {
  }
}
