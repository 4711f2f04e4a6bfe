/**
 * The single-post page (components/BlogPostView.tsx): the null-post guard and
 * the line-by-line renderer of the markdown-like body. The renderer is an ad
 * hoc format: a line whose trimmed form starts with three backticks opens or
 * closes a code block, "# ", "## " and "### " at the very start of a line
 * make headings, blank lines vanish and every other line is a paragraph.
 */
module BlogPostView {
  import opened Types
  import opened Text

  /** The rendered blocks: a code block, the three heading levels and a paragraph. */
  datatype Elem = Code(text: string) | H2(text: string) | H3(text: string) | H4(text: string) | P(text: string)

  const Fence := "```"

  /** A code fence: the trimmed line starts with three backticks; the rest is ignored. */
  predicate IsFence(line: string) {
    StartsWith(Trim(line), Fence)
  }

  /** What a line outside a code block emits, if anything. */
  function Classify(line: string): Option<Elem> {
    if StartsWith(line, "# ") then Some(H2(RemoveFirst(line, "# ")))
    else if StartsWith(line, "## ") then Some(H3(RemoveFirst(line, "## ")))
    else if StartsWith(line, "### ") then Some(H4(RemoveFirst(line, "### ")))
    else if Trim(line) == "" then None
    else Some(P(line))
  }

  /** The renderer's loop state: the code-block flag, the buffered code lines, the output. */
  datatype Parser = Parser(codeBlock: bool, codeContent: seq<string>, elements: seq<Elem>)

  const Start := Parser(false, [], [])

  /** One iteration of the line loop. */
  function Feed(st: Parser, line: string): Parser {
    if IsFence(line) then
      if st.codeBlock then Parser(false, [], st.elements + [Code(Join(st.codeContent, '\n'))])
      else st.(codeBlock := true)
    else if st.codeBlock then st.(codeContent := st.codeContent + [line])
    else
      match Classify(line)
      case None => st
      case Some(e) => st.(elements := st.elements + [e])
  }

  /** The loop state after feeding `lines`, in order, starting from `st`. */
  function Run(st: Parser, lines: seq<string>): Parser
    decreases |lines|
  {
    if |lines| == 0 then st else Feed(Run(st, lines[..|lines| - 1]), lines[|lines| - 1])
  }

  /** `renderContent`: the blocks of a post body. */
  function Render(content: string): seq<Elem> {
    Run(Start, Split(content, '\n')).elements
  }

  /** The keys `0, 1, …, n - 1`. */
  function Keys(n: nat): (r: seq<nat>)
    ensures |r| == n && forall j :: 0 <= j < n ==> r[j] == j
  {
    seq(n, j requires 0 <= j => j)
  }

  lemma KeysNext(n: nat)
    ensures Keys(n + 1) == Keys(n) + [n]
  {
  }

  /**
   * The `forEach` callback of `renderContent`: one line against the loop
   * variables, each emitted block taking the next key.
   */
  method RenderLine(line: string, codeBlock: bool, codeContent: seq<string>, elements: seq<Elem>, keys: seq<nat>, key: nat)
    returns (codeBlock': bool, codeContent': seq<string>, elements': seq<Elem>, keys': seq<nat>, key': nat)
    requires key == |elements| && keys == Keys(key)
    ensures Parser(codeBlock', codeContent', elements') == Feed(Parser(codeBlock, codeContent, elements), line)
    ensures key' == |elements'| && keys' == Keys(key')
  {
    codeBlock', codeContent', elements', keys', key' := codeBlock, codeContent, elements, keys, key;
    if StartsWith(Trim(line), "```") {
      if codeBlock {
        KeysNext(key);
        elements', keys', key' := elements + [Code(Join(codeContent, '\n'))], keys + [key], key + 1;
        codeContent' := [];
        codeBlock' := false;
      } else {
        codeBlock' := true;
      }
    } else if codeBlock {
      codeContent' := codeContent + [line];
    } else {
      var e := Classify(line);
      if e.Some? {
        KeysNext(key);
        elements', keys', key' := elements + [e.value], keys + [key], key + 1;
      }
    }
  }

  /** `renderContent`: split the body into lines and run the callback on each, in order. */
  method RenderContent(content: string) returns (elements: seq<Elem>, keys: seq<nat>)
    ensures elements == Render(content)
    ensures |keys| == |elements|
    ensures forall j :: 0 <= j < |keys| ==> keys[j] == j
  {
    var lines := Split(content, '\n');
    elements, keys := [], [];
    var codeBlock := false;
    var codeContent: seq<string> := [];
    var key: nat := 0;
    var i := 0;
    while i < |lines|
      invariant 0 <= i <= |lines|
      invariant Parser(codeBlock, codeContent, elements) == Run(Start, lines[..i])
      invariant key == |elements| && keys == Keys(key)
    {
      RunSnoc(Start, lines, i);
      codeBlock, codeContent, elements, keys, key := RenderLine(lines[i], codeBlock, codeContent, elements, keys, key);
      i := i + 1;
    }
    assert lines[..|lines|] == lines;
  }

  /** Feeding one more line of `lines` is one more step of the fold. */
  lemma RunSnoc(st: Parser, lines: seq<string>, i: nat)
    requires i < |lines|
    ensures Run(st, lines[..i + 1]) == Feed(Run(st, lines[..i]), lines[i])
  {
    assert lines[..i + 1][..i] == lines[..i];
  }

  /** Feeding two runs of lines one after the other is feeding their concatenation. */
  lemma {:induction false} RunAppend(st: Parser, a: seq<string>, b: seq<string>)
    ensures Run(st, a + b) == Run(Run(st, a), b)
    decreases |b|
  {
    if |b| == 0 {
      assert a + b == a;
    } else {
      var ab, init, last := a + b, b[..|b| - 1], b[|b| - 1];
      assert ab[..|ab| - 1] == a + init;
      assert ab[|ab| - 1] == last;
      RunAppend(st, a, init);
      var mid := Run(st, a + init);
      assert mid == Run(Run(st, a), init);
      assert Run(st, ab) == Feed(mid, last);
      assert Run(Run(st, a), b) == Feed(Run(Run(st, a), init), last);
    }
  }

  /** The three heading levels, each with its marker removed. */
  lemma HeaderLevels(x: string)
    ensures Classify("# " + x) == Some(H2(x))
    ensures Classify("## " + x) == Some(H3(x))
    ensures Classify("### " + x) == Some(H4(x))
  {
    RemoveFirstOfPrefix("# " + x, "# ");
    assert ("# " + x)[2..] == x;
    RemoveFirstOfPrefix("## " + x, "## ");
    assert ("## " + x)[..2] == "##";
    assert ("## " + x)[..3] == "## ";
    assert ("## " + x)[3..] == x;
    RemoveFirstOfPrefix("### " + x, "### ");
    assert ("### " + x)[..2] == "##";
    assert ("### " + x)[..3] == "###";
    assert ("### " + x)[..4] == "### ";
    assert ("### " + x)[4..] == x;
  }

  /** Four markers are not a heading: the line is a paragraph. */
  lemma FourMarkersIsParagraph(x: string)
    ensures Classify("#### " + x) == Some(P("#### " + x))
  {
    var line := "#### " + x;
    assert line[1] == '#' && line[2] == '#' && line[3] == '#';
    assert !StartsWith(line, "# ") by { assert "# "[1] == ' '; }
    assert !StartsWith(line, "## ") by { assert "## "[2] == ' '; }
    assert !StartsWith(line, "### ") by { assert "### "[3] == ' '; }
    TrimEmptyIffBlank(line);
    assert !IsSpace(line[0]);
  }

  /** A marker not followed by a space is not a heading: the line is a paragraph. */
  lemma TightMarkerIsParagraph(rest: string)
    requires |rest| > 0 && rest[0] != '#' && rest[0] != ' '
    ensures Classify("#" + rest) == Some(P("#" + rest))
  {
    var line := "#" + rest;
    assert line[0] == '#' && line[1] == rest[0];
    assert !StartsWith(line, "# ") by { assert "# "[1] == ' '; }
    assert !StartsWith(line, "## ") by { assert "## "[1] == '#'; }
    assert !StartsWith(line, "### ") by { assert "### "[1] == '#'; }
    TrimEmptyIffBlank(line);
    assert !IsSpace(line[0]);
  }

  /** Headings are recognised on the untrimmed line: an indented marker gives a paragraph. */
  lemma IndentedMarkerIsParagraph(x: string)
    ensures Classify(" # " + x) == Some(P(" # " + x))
  {
    var line := " # " + x;
    assert line[0] == ' ' && line[1] == '#';
    assert !StartsWith(line, "# ") by { assert "# "[0] == '#'; }
    assert !StartsWith(line, "## ") by { assert "## "[0] == '#'; }
    assert !StartsWith(line, "### ") by { assert "### "[0] == '#'; }
    TrimEmptyIffBlank(line);
    assert !IsSpace(line[1]);
  }

  /** A whitespace-only line outside code emits nothing. */
  lemma BlankLineSkipped(line: string)
    requires forall i :: 0 <= i < |line| ==> IsSpace(line[i])
    ensures Classify(line) == None
  {
    TrimEmptyIffBlank(line);
    if |line| >= 2 {
      assert IsSpace(line[0]);
    }
  }

  /** Every other line outside code is a paragraph holding the line unchanged. */
  lemma ParagraphKeepsLine(line: string)
    requires !StartsWith(line, "# ") && !StartsWith(line, "## ") && !StartsWith(line, "### ")
    requires exists i :: 0 <= i < |line| && !IsSpace(line[i])
    ensures Classify(line) == Some(P(line))
  {
    TrimEmptyIffBlank(line);
  }

  /** No line of `lines` is a fence. */
  predicate NoFence(lines: seq<string>) {
    forall k :: 0 <= k < |lines| ==> !IsFence(lines[k])
  }

  /** Inside a code block every non-fence line is buffered verbatim and nothing is emitted. */
  lemma {:induction false} CodeLinesBuffered(st: Parser, lines: seq<string>)
    requires st.codeBlock && NoFence(lines)
    ensures Run(st, lines) == st.(codeContent := st.codeContent + lines)
    decreases |lines|
  {
    if |lines| == 0 {
      assert st.codeContent + lines == st.codeContent;
    } else {
      var init := lines[..|lines| - 1];
      CodeLinesBuffered(st, init);
      assert st.codeContent + init + [lines[|lines| - 1]] == st.codeContent + lines;
    }
  }

  /** A closed fence emits one code block: the lines between the fences joined by line feeds. */
  lemma FencedBlock(st: Parser, open: string, code: seq<string>, close: string)
    requires !st.codeBlock && st.codeContent == []
    requires IsFence(open) && IsFence(close) && NoFence(code)
    ensures Run(st, [open] + code + [close]) == st.(elements := st.elements + [Code(Join(code, '\n'))])
  {
    var inCode := st.(codeBlock := true);
    assert Run(st, [open]) == inCode by {
      assert [open][..0] == [];
    }
    var buffered := inCode.(codeContent := code);
    assert Run(st, [open] + code) == buffered by {
      RunAppend(st, [open], code);
      CodeLinesBuffered(inCode, code);
    }
    assert Run(st, [open] + code + [close]) == Feed(buffered, close) by {
      RunAppend(st, [open] + code, [close]);
      assert [close][..0] == [];
    }
  }

  /** The lines after a fence that is never closed are dropped: the output stays as it was. */
  lemma UnclosedFenceDropped(st: Parser, open: string, rest: seq<string>)
    requires !st.codeBlock && IsFence(open) && NoFence(rest)
    ensures Run(st, [open] + rest).elements == st.elements
    ensures Run(st, [open] + rest).codeBlock
  {
    assert [open][..0] == [];
    RunAppend(st, [open], rest);
    CodeLinesBuffered(st.(codeBlock := true), rest);
  }

  /** At most one block per line, and what was emitted stays, in order, at the front. */
  lemma {:induction false} OutputFollowsLines(st: Parser, lines: seq<string>)
    ensures |st.elements| <= |Run(st, lines).elements| <= |st.elements| + |lines|
    ensures Run(st, lines).elements[..|st.elements|] == st.elements
    decreases |lines|
  {
    if |lines| > 0 {
      var prev := Run(st, lines[..|lines| - 1]);
      OutputFollowsLines(st, lines[..|lines| - 1]);
      var next := Feed(prev, lines[|lines| - 1]);
      assert prev.elements[..|st.elements|] == st.elements;
      assert next.elements[..|prev.elements|] == prev.elements;
    }
  }

  /** Outside a code block the buffer is empty. */
  lemma {:induction false} BufferEmptyOutsideCode(lines: seq<string>)
    ensures !Run(Start, lines).codeBlock ==> Run(Start, lines).codeContent == []
    decreases |lines|
  {
    if |lines| > 0 {
      BufferEmptyOutsideCode(lines[..|lines| - 1]);
    }
  }

  /** The blocks of fence-free lines, each line classified on its own. */
  function Outline(lines: seq<string>): seq<Elem>
    decreases |lines|
  {
    if |lines| == 0 then []
    else
      var init := Outline(lines[..|lines| - 1]);
      match Classify(lines[|lines| - 1])
      case None => init
      case Some(e) => init + [e]
  }

  /** Without fences, outside a code block, the renderer is a line-by-line map through `Classify`. */
  lemma {:induction false} NoFenceIsOutline(st: Parser, lines: seq<string>)
    requires !st.codeBlock && st.codeContent == [] && NoFence(lines)
    ensures Run(st, lines) == st.(elements := st.elements + Outline(lines))
    decreases |lines|
  {
    if |lines| == 0 {
      assert st.elements + [] == st.elements;
    } else {
      var init, last := lines[..|lines| - 1], lines[|lines| - 1];
      assert NoFence(init) by {
        assert forall k :: 0 <= k < |init| ==> init[k] == lines[k];
      }
      NoFenceIsOutline(st, init);
      var prev := Run(st, init);
      assert !IsFence(last);
      assert Run(st, lines) == Feed(prev, last);
      match Classify(last)
      case None =>
      case Some(e) =>
        assert st.elements + Outline(init) + [e] == st.elements + (Outline(init) + [e]);
    }
  }

  /** Rendering a body given as its lines, none of which holds a line feed, is feeding those lines. */
  lemma RenderLines(lines: seq<string>)
    requires |lines| >= 1 && forall k :: 0 <= k < |lines| ==> '\n' !in lines[k]
    ensures Render(Join(lines, '\n')) == Run(Start, lines).elements
  {
    SplitJoin(lines, '\n');
  }

  /** The page's content for a post: its header fields and rendered body. */
  datatype Article = Article(
    tags: seq<string>,
    title: string,
    date: string,
    readTime: string,
    excerpt: string,
    body: seq<Elem>)

  /** `BlogPostView`: nothing at all for a missing post. */
  function View(post: Option<BlogPost>): (r: Option<Article>)
    ensures r.None? <==> post.None?
    ensures r.Some? ==> r.value.title == post.value.title && r.value.body == Render(post.value.content)
    ensures r.Some? ==> r.value.tags == post.value.tags && r.value.date == post.value.date
    ensures r.Some? ==> r.value.readTime == post.value.readTime && r.value.excerpt == post.value.excerpt
  {
    match post
    case None => None
    case Some(p) => Some(Article(p.tags, p.title, p.date, p.readTime, p.excerpt, Render(p.content)))
  }
}
