/** The rewrite rules of apps/api/app/services/simple_markdown_to_image.py:
    relative image URLs become raw.githubusercontent.com URLs
    (`process_markdown_images`), and reference-style images are resolved
    against the reference definitions (`fix_github_shields`).

    The regular-expression scanning is not modelled: a document is given as
    the sequence of its pieces, plain text and the matches the patterns find,
    and each match is rewritten on its own, as `re.sub` does. */
module MarkdownImages {
  import opened Wrappers
  import opened PyStrings

  // ---------------------------------------------------------------------
  // process_markdown_images

  /** A piece of a document: plain text, a markdown image `![alt](url)`, or
      an HTML image `<img{before}src={q1}{url}{q2}{after}>`. */
  datatype Piece =
    | Plain(text: string)
    | MarkdownImage(alt: string, url: string)
    | HtmlImage(before: string, openQuote: char, url: string, closeQuote: char, after: string)

  /** The text a piece stands for. */
  function Source(p: Piece): string
  {
    match p
    case Plain(text) => text
    case MarkdownImage(alt, url) => "![" + alt + "](" + url + ")"
    case HtmlImage(before, q1, url, q2, after) => "<img" + before + "src=" + [q1] + url + [q2] + after + ">"
  }

  function Render(pieces: seq<Piece>): string
  {
    if pieces == [] then [] else Source(pieces[0]) + Render(pieces[1..])
  }

  const RawBase := "https://raw.githubusercontent.com/"

  /** URLs that are left alone: absolute, data and root-relative ones. */
  predicate IsAbsolute(url: string)
  {
    StartsWith(url, "http://") || StartsWith(url, "https://") || StartsWith(url, "data:") || StartsWith(url, "/")
  }

  /** The raw URL of `path` in the repository's tree at the branch. */
  function RawPath(owner: string, name: string, branch: string, path: string): (r: string)
    ensures StartsWith(r, RawBase)
  {
    var r := RawBase + (owner + "/" + name + "/" + branch + "/" + path);
    assert r[..|RawBase|] == RawBase;
    r
  }

  /** The raw URL for a relative one, which loses one leading "./". */
  function RawUrl(url: string, owner: string, name: string, branch: string): string
  {
    RawPath(owner, name, branch, if StartsWith(url, "./") then url[2..] else url)
  }

  /** `replace_relative_url` and `replace_html_img` for one match. */
  function Rewrite(p: Piece, owner: string, name: string, branch: string): (r: string)
    ensures p.Plain? || (!p.Plain? && IsAbsolute(p.url)) ==> r == Source(p)
  {
    match p
    case Plain(text) => text
    case MarkdownImage(alt, url) =>
      if IsAbsolute(url) then Source(p) else "![" + alt + "](" + RawUrl(url, owner, name, branch) + ")"
    case HtmlImage(before, _, url, _, after) =>
      if IsAbsolute(url) then Source(p) else "<img" + before + "src=\"" + RawUrl(url, owner, name, branch) + "\"" + after + ">"
  }

  function RewriteAll(pieces: seq<Piece>, owner: string, name: string, branch: string): string
  {
    if pieces == [] then [] else Rewrite(pieces[0], owner, name, branch) + RewriteAll(pieces[1..], owner, name, branch)
  }

  /** `process_markdown_images` */
  function ProcessMarkdownImages(pieces: seq<Piece>, owner: Option<string>, name: Option<string>, branch: string): (r: string)
    ensures Falsy(owner) || Falsy(name) ==> r == Render(pieces)
  {
    if Falsy(owner) || Falsy(name) then Render(pieces) else RewriteAll(pieces, owner.value, name.value, branch)
  }

  /** A relative URL, with or without a leading "./", points into the
      repository's tree at the branch. */
  lemma RelativeUrlResolved(alt: string, path: string, owner: string, name: string, branch: string)
    requires !IsAbsolute(path) && !StartsWith(path, "./")
    ensures Rewrite(MarkdownImage(alt, path), owner, name, branch)
            == "![" + alt + "](" + RawPath(owner, name, branch, path) + ")"
    ensures Rewrite(MarkdownImage(alt, "./" + path), owner, name, branch)
            == "![" + alt + "](" + RawPath(owner, name, branch, path) + ")"
  {
    var dotted := "./" + path;
    assert !IsAbsolute(dotted) by { assert dotted[0] == '.'; }
    assert StartsWith(dotted, "./") && dotted[2..] == path;
  }

  /** Only one "./" is removed. */
  lemma OneDotSlashRemoved(path: string, owner: string, name: string, branch: string)
    ensures RawUrl("././" + path, owner, name, branch) == RawPath(owner, name, branch, "./" + path)
  {
    var url := "././" + path;
    assert StartsWith(url, "./") && url[2..] == "./" + path;
  }

  /** An HTML image keeps the text around `src`, and its new URL is written
      between double quotes. */
  lemma HtmlImageKeepsAttributes(before: string, q1: char, url: string, q2: char, after: string,
                                 owner: string, name: string, branch: string)
    requires !IsAbsolute(url)
    ensures var r := Rewrite(HtmlImage(before, q1, url, q2, after), owner, name, branch);
            && StartsWith(r, "<img" + before + "src=\"" + RawBase)
            && EndsWith(r, "\"" + after + ">")
  {
    var raw := RawUrl(url, owner, name, branch);
    var head := "<img" + before + "src=\"";
    var tail := "\"" + after + ">";
    var r := head + raw + tail;
    assert Rewrite(HtmlImage(before, q1, url, q2, after), owner, name, branch) == r;
    assert raw == RawBase + raw[|RawBase|..];
    assert r == (head + RawBase) + (raw[|RawBase|..] + tail);
    assert r[|r| - |tail|..] == tail;
  }

  /** A rewritten URL is absolute, so rewriting the result again changes
      nothing: processing a document twice is processing it once. */
  lemma RewriteIdempotent(p: Piece, owner: string, name: string, branch: string)
    ensures var q := match p
                     case Plain(_) => p
                     case MarkdownImage(alt, url) =>
                       if IsAbsolute(url) then p else MarkdownImage(alt, RawUrl(url, owner, name, branch))
                     case HtmlImage(before, q1, url, q2, after) =>
                       if IsAbsolute(url) then p else HtmlImage(before, '"', RawUrl(url, owner, name, branch), '"', after);
            && Source(q) == Rewrite(p, owner, name, branch)
            && Rewrite(q, owner, name, branch) == Source(q)
  {
    if !p.Plain? && !IsAbsolute(p.url) {
      var raw := RawUrl(p.url, owner, name, branch);
      assert StartsWith(raw, "https://") by { assert raw[..8] == RawBase[..8]; }
    }
  }

  // ---------------------------------------------------------------------
  // fix_github_shields

  /** A reference definition line `[name]: url`, once the line is
      stripped: the name runs to the first "]", which a ":" must follow. */
  function RefDefinition(line: string): (r: Option<(string, string)>)
    ensures r.Some? ==> r.value.0 != [] && ']' !in r.value.0
  {
    DefinitionIn(Strip(line))
  }

  function DefinitionIn(s: string): (r: Option<(string, string)>)
    ensures r.Some? ==> r.value.0 != [] && ']' !in r.value.0
  {
    if |s| < 2 || s[0] != '[' || ']' !in s[1..] then None
    else
      var t := s[1..];
      var k := IndexOf(t, ']');
      if k == 0 || k + 1 >= |t| || t[k + 1] != ':' then None
      else
        var url := DefinedUrl(t[k + 2..]);
        if url.None? then None else Some((t[..k], url.value))
  }

  /** The URL after the ":": any whitespace is skipped and the rest, which
      must not be empty, is stripped. */
  function DefinedUrl(after: string): Option<string>
  {
    var rest := LStripBy(after, IsSpace);
    if rest == [] then None else Some(Strip(rest))
  }

  /** What `RefDefinition` makes of each line. */
  function Definitions(lines: seq<string>): (r: seq<Option<(string, string)>>)
    ensures |r| == |lines|
  {
    if lines == [] then [] else Definitions(lines[..|lines| - 1]) + [RefDefinition(lines[|lines| - 1])]
  }

  /** The references after reading the definitions in order: a later
      definition of a name replaces an earlier one. */
  function Collect(definitions: seq<Option<(string, string)>>): map<string, string>
  {
    if definitions == [] then map[]
    else Define(Collect(definitions[..|definitions| - 1]), definitions[|definitions| - 1])
  }

  /** `references[ref_name] = ref_url` when the line is a definition. */
  function Define(references: map<string, string>, definition: Option<(string, string)>): map<string, string>
  {
    if definition.Some? then references[definition.value.0 := definition.value.1] else references
  }

  lemma CollectSnoc(definitions: seq<Option<(string, string)>>, definition: Option<(string, string)>)
    ensures Collect(definitions + [definition]) == Define(Collect(definitions), definition)
  {
    assert (definitions + [definition])[..|definitions|] == definitions;
  }

  function ReferencesOf(lines: seq<string>): map<string, string>
  {
    Collect(Definitions(lines))
  }

  /** The loop of `fix_github_shields` that fills `references`. */
  method CollectReferences(content: string) returns (references: map<string, string>)
    ensures references == ReferencesOf(Split(content, '\n'))
  {
    var lines := Split(content, '\n');
    references := map[];
    ghost var read: seq<Option<(string, string)>> := [];
    for i := 0 to |lines|
      invariant read == Definitions(lines[..i])
      invariant references == Collect(read)
    {
      var definition := RefDefinition(lines[i]);
      references := Record(references, definition);
      DefinitionsSnoc(lines, i);
      CollectSnoc(read, definition);
      read := read + [definition];
    }
    assert lines[..|lines|] == lines;
  }

  lemma DefinitionsSnoc(lines: seq<string>, i: nat)
    requires i < |lines|
    ensures Definitions(lines[..i + 1]) == Definitions(lines[..i]) + [RefDefinition(lines[i])]
  {
    var next := lines[..i + 1];
    assert next[..i] == lines[..i] && next[i] == lines[i];
  }

  /** `references[ref_name] = ref_url`, for a line that matched. */
  method Record(references: map<string, string>, definition: Option<(string, string)>) returns (r: map<string, string>)
    ensures r == Define(references, definition)
  {
    r := references;
    if definition.Some? {
      var (name, url) := definition.value;
      r := r[name := url];
    }
  }

  /** The i-th definition is what the i-th line says. */
  lemma {:induction false} DefinitionAt(lines: seq<string>, i: int)
    requires 0 <= i < |lines|
    ensures Definitions(lines)[i] == RefDefinition(lines[i])
  {
    var n := |lines| - 1;
    var init := lines[..n];
    var earlier := Definitions(init);
    var all := Definitions(lines);
    var line := lines[i];
    assert all == earlier + [RefDefinition(lines[n])];
    if i < n {
      assert init[i] == line;
      DefinitionAt(init, i);
      assert all[i] == earlier[i];
    } else {
      assert i == n;
      assert all[i] == RefDefinition(lines[n]);
    }
  }

  predicate DefinesAt(definitions: seq<Option<(string, string)>>, i: int, name: string)
  {
    0 <= i < |definitions| && definitions[i].Some? && definitions[i].value.0 == name
  }

  /** A name has a reference exactly when some line defines it. */
  lemma {:induction false} ReferenceDefined(definitions: seq<Option<(string, string)>>, name: string)
    ensures name in Collect(definitions) <==> exists i :: DefinesAt(definitions, i, name)
  {
    if definitions != [] {
      var n := |definitions| - 1;
      var init := definitions[..n];
      ReferenceDefined(init, name);
      if exists i :: DefinesAt(init, i, name) {
        var i :| DefinesAt(init, i, name);
        assert DefinesAt(definitions, i, name);
      }
      if exists i :: DefinesAt(definitions, i, name) {
        var i :| DefinesAt(definitions, i, name);
        if i < n {
          assert DefinesAt(init, i, name);
        }
      }
      if DefinesAt(definitions, n, name) {
        assert name in Collect(definitions);
      } else if name in Collect(definitions) {
        assert name in Collect(init);
      }
    }
  }

  /** The last line that defines a name decides its URL. */
  lemma {:induction false} LastDefinitionWins(definitions: seq<Option<(string, string)>>, i: int, name: string)
    requires DefinesAt(definitions, i, name)
    requires forall j :: i < j < |definitions| ==> !DefinesAt(definitions, j, name)
    ensures name in Collect(definitions) && Collect(definitions)[name] == definitions[i].value.1
  {
    var n := |definitions| - 1;
    var init := definitions[..n];
    assert Collect(definitions) == Define(Collect(init), definitions[n]);
    if i < n {
      assert !DefinesAt(definitions, n, name);
      assert DefinesAt(init, i, name);
      forall j | i < j < |init|
        ensures !DefinesAt(init, j, name)
      {
        assert !DefinesAt(definitions, j, name);
      }
      LastDefinitionWins(init, i, name);
    }
  }

  /** A piece of a document for `fix_github_shields`: plain text, a
      reference-style image `![alt][ref]`, or one followed by a link
      reference, `![alt][ref][link]`. */
  datatype ShieldPiece =
    | Text(text: string)
    | RefImage(alt: string, ref: string)
    | LinkedRefImage(alt: string, ref: string, link: string)

  function ShieldSource(p: ShieldPiece): string
  {
    match p
    case Text(text) => text
    case RefImage(alt, ref) => "![" + alt + "][" + ref + "]"
    case LinkedRefImage(alt, ref, link) => "![" + alt + "][" + ref + "][" + link + "]"
  }

  function ShieldRender(pieces: seq<ShieldPiece>): string
  {
    if pieces == [] then [] else ShieldSource(pieces[0]) + ShieldRender(pieces[1..])
  }

  /** `replace_ref_image`: an image whose reference is defined becomes an
      inline image; otherwise the match is kept as it was. */
  function ReplaceRefImage(alt: string, ref: string, references: map<string, string>): string
  {
    if ref in references then "![" + alt + "](" + references[ref] + ")" else "![" + alt + "][" + ref + "]"
  }

  /** Both passes over one piece. The first pass resolves the image; only
      when its reference is undefined does the second pass see
      `![alt][ref][link]`, and then wraps the image in the link if `link` is
      defined and drops the `[link]` if it is not. */
  function FixPiece(p: ShieldPiece, references: map<string, string>): (r: string)
    ensures Unresolved(p, references) ==> r == ShieldSource(p)
    ensures !p.Text? && p.ref in references ==> "![" + p.alt + "](" + references[p.ref] + ")" <= r
    ensures p.LinkedRefImage? && p.ref in references ==> EndsWith(r, "[" + p.link + "]")
    ensures p.LinkedRefImage? && p.ref !in references ==>
              r == if p.link in references then "[" + ShieldSource(RefImage(p.alt, p.ref)) + "](" + references[p.link] + ")"
                   else ShieldSource(RefImage(p.alt, p.ref))
  {
    match p
    case Text(text) => text
    case RefImage(alt, ref) => ReplaceRefImage(alt, ref, references)
    case LinkedRefImage(alt, ref, link) =>
      if ref in references then ReplaceRefImage(alt, ref, references) + "[" + link + "]"
      else
        var image := ReplaceRefImage(alt, ref, references);
        if link in references then "[" + image + "](" + references[link] + ")" else image
  }

  /** Plain text, or an image without a link whose reference is not defined:
      the two pieces that both passes leave as they are. */
  predicate Unresolved(p: ShieldPiece, references: map<string, string>)
  {
    p.Text? || (p.RefImage? && p.ref !in references)
  }

  function FixAll(pieces: seq<ShieldPiece>, references: map<string, string>): (r: string)
    ensures (forall i :: 0 <= i < |pieces| ==> Unresolved(pieces[i], references)) ==> r == ShieldRender(pieces)
  {
    if pieces == [] then []
    else
      assert forall i :: 0 <= i < |pieces| - 1 ==> pieces[1..][i] == pieces[i + 1];
      FixPiece(pieces[0], references) + FixAll(pieces[1..], references)
  }

  /** `fix_github_shields`: the references come from the whole document. */
  function FixGitHubShields(pieces: seq<ShieldPiece>): (r: string)
    ensures var references := ReferencesOf(Split(ShieldRender(pieces), '\n'));
            (forall i :: 0 <= i < |pieces| ==> Unresolved(pieces[i], references)) ==> r == ShieldRender(pieces)
    ensures (forall i :: 0 <= i < |pieces| ==> pieces[i].Text?) ==> r == ShieldRender(pieces)
  {
    FixAll(pieces, ReferencesOf(Split(ShieldRender(pieces), '\n')))
  }

  /** With no definition for its reference, an image is kept verbatim; with
      one, it becomes an inline image of the URL the last definition gives. */
  lemma RefImageResolution(alt: string, ref: string, definitions: seq<Option<(string, string)>>)
    ensures var refs := Collect(definitions);
            && ((forall i :: !DefinesAt(definitions, i, ref)) ==> FixPiece(RefImage(alt, ref), refs) == ShieldSource(RefImage(alt, ref)))
            && (forall i :: DefinesAt(definitions, i, ref) && (forall j :: i < j < |definitions| ==> !DefinesAt(definitions, j, ref))
                  ==> FixPiece(RefImage(alt, ref), refs) == "![" + alt + "](" + definitions[i].value.1 + ")")
  {
    ReferenceDefined(definitions, ref);
    forall i | DefinesAt(definitions, i, ref) && (forall j :: i < j < |definitions| ==> !DefinesAt(definitions, j, ref))
      ensures FixPiece(RefImage(alt, ref), Collect(definitions)) == "![" + alt + "](" + definitions[i].value.1 + ")"
    {
      LastDefinitionWins(definitions, i, ref);
    }
  }
}
