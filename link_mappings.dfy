/** The phrase-to-anchor rewriter: every table phrase in a message becomes an HTML link to
    its url, unless it already sits inside a link. Each phrase is one global,
    case-insensitive regular-expression replace, modelled here as an explicit scanner. */
module LinkMappings {
  import opened JsText

  type Phrase = s: string | |s| > 0 witness "a"

  datatype LinkEntry = LinkEntry(phrase: Phrase, url: string)

  /** `linkMappings`, in insertion order (the order `Object.entries` visits them). */
  const Table: seq<LinkEntry> := [
    LinkEntry("LinkedIn", "https://www.linkedin.com/in/petersen-matthew/"),
    LinkEntry("GitHub Portfolio", "https://github.com/petersenmatthew"),
    LinkEntry("@mmptrsn", "https://twitter.com/mmptrsn"),
    LinkEntry("@mxtthewpetersen", "https://instagram.com/mxtthewpetersen"),
    LinkEntry("matthewp@uwaterloo.ca", "mailto:matthewp@uwaterloo.ca"),
    LinkEntry("Schulich Leader Scholarship", "https://schulichleaders.com/"),
    LinkEntry("4Sight", "https://github.com/justinwuzijin/eye-tester-app"),
    LinkEntry("Project WhyFi", "https://projectwhyfi.ca/")
  ]

  const AnchorOpen: string := "<a href=\""
  const AnchorAttributes: string := TargetAttribute + RelAttribute + StyleAttribute + ColorAttribute
  const TargetAttribute: string := "\" target=\"_blank\""
  const RelAttribute: string := " rel=\"noopener noreferrer\""
  const StyleAttribute: string := " style=\"text-decoration:underline;"
  const ColorAttribute: string := "color:#3b82f6;\">"
  const AnchorClose: string := "</a>"

  /** The replacement text: the table's own spelling of the phrase, linked to its url. */
  function Anchor(e: LinkEntry): (r: string)
    ensures |r| > |AnchorOpen + e.url| && r[|AnchorOpen|..|AnchorOpen + e.url|] == e.url
    ensures |r| > |e.phrase + AnchorClose| && r[|r| - |e.phrase + AnchorClose|..] == e.phrase + AnchorClose
  {
    AnchorOpen + e.url + AnchorAttributes + e.phrase + AnchorClose
  }

  //------------------------------------------------------------------
  // The pieces of the regular expression
  //------------------------------------------------------------------

  /** `\w` without the unicode flag. */
  predicate IsWordChar(c: char) {
    ('a' <= c <= 'z') || ('A' <= c <= 'Z') || ('0' <= c <= '9') || c == '_'
  }

  predicate WordAt(t: string, q: int) {
    0 <= q < |t| && IsWordChar(t[q])
  }

  /** `\b` between positions q-1 and q; the ends of the text count as non-word. */
  predicate Boundary(t: string, q: int) {
    WordAt(t, q - 1) != WordAt(t, q)
  }

  /** The phrase occurs at p, letters compared without case. For an ASCII phrase this is
      exactly what the `i` flag does: no non-ASCII character folds onto an ASCII one. */
  predicate CaseMatchAt(t: string, w: string, p: nat) {
    p + |w| <= |t| && forall k :: 0 <= k < |w| ==> AsciiLower(t[p + k]) == AsciiLower(w[k])
  }

  predicate ContainsPhrase(t: string, w: string) {
    exists p: nat :: p <= |t| && CaseMatchAt(t, w, p)
  }

  /** `(?<!["'>])`: the character before p is not a double quote, a single quote or `>`. */
  predicate LookbehindOk(t: string, p: nat) {
    p == 0 || p > |t| || (t[p - 1] != '"' && t[p - 1] != '\'' && t[p - 1] != '>')
  }

  /** `</a>` at k, the letter in either case. */
  predicate ClosesAnchor(t: string, k: nat) {
    k + 4 <= |t| && t[k] == '<' && t[k + 1] == '/' && AsciiLower(t[k + 2]) == 'a' && t[k + 3] == '>'
  }

  /** `[^<]*</a>` matches at q: the first `<` at or after q begins a closing `</a>`. */
  predicate AnchorAhead(t: string, q: nat)
    decreases |t| - q
  {
    if q >= |t| then false
    else if t[q] == '<' then ClosesAnchor(t, q)
    else AnchorAhead(t, q + 1)
  }

  /** The scanner's lookahead is the regular expression's: some run of non-`<` characters
      from q is followed by `</a>`. */
  lemma {:induction false} AnchorAheadIff(t: string, q: nat)
    ensures AnchorAhead(t, q) <==> exists k: nat :: q <= k && k + 4 <= |t| && '<' !in t[q..k] && ClosesAnchor(t, k)
    decreases |t| - q
  {
    if q >= |t| {
    } else if t[q] == '<' {
      if AnchorAhead(t, q) {
        assert t[q..q] == [];
      }
      forall k: nat | q < k && k + 4 <= |t|
        ensures '<' in t[q..k]
      {
        assert t[q..k][0] == t[q];
      }
    } else {
      AnchorAheadIff(t, q + 1);
      forall k: nat | q < k && k + 4 <= |t|
        ensures t[q..k] == [t[q]] + t[q + 1..k]
      {
      }
    }
  }

  /** One match of the phrase's regular expression at p: `(?<!["'>])phrase(?![^<]*</a>)`
      for a phrase starting with `@`, `\bphrase\b(?![^<]*</a>)` for the others. */
  predicate MatchAt(t: string, e: LinkEntry, p: nat)
    ensures MatchAt(t, e, p) ==> p + |e.phrase| <= |t| && ContainsPhrase(t, e.phrase)
  {
    && CaseMatchAt(t, e.phrase, p)
    && (if e.phrase[0] == '@' then LookbehindOk(t, p)
        else Boundary(t, p) && Boundary(t, p + |e.phrase|))
    && !AnchorAhead(t, p + |e.phrase|)
  }

  //------------------------------------------------------------------
  // One global replace
  //------------------------------------------------------------------

  /** A character copied as it is, or a matched occurrence replaced by the anchor. */
  datatype Piece = Keep(at: nat, c: char) | Link(at: nat, matched: string)

  function PieceEnd(e: LinkEntry, pc: Piece): nat {
    if pc.Keep? then pc.at + 1 else pc.at + |e.phrase|
  }

  /** The input text a piece covers. */
  function PieceText(pc: Piece): string {
    if pc.Keep? then [pc.c] else pc.matched
  }

  /** The piece that starts at i: the match there, if there is one, or the character. */
  function NextPiece(t: string, e: LinkEntry, i: nat): (pc: Piece)
    requires i < |t|
    ensures pc.at == i && i < PieceEnd(e, pc) <= |t|
    ensures PieceText(pc) == t[i..PieceEnd(e, pc)]
    ensures pc.Link? <==> MatchAt(t, e, i)
  {
    if MatchAt(t, e, i) then Link(i, t[i..i + |e.phrase|]) else Keep(i, t[i])
  }

  /** The pieces lie end to end from i to the end of the text. */
  predicate TilesFrom(t: string, e: LinkEntry, i: nat, ps: seq<Piece>) {
    && (ps == [] <==> i == |t|)
    && (ps != [] ==> ps[0].at == i && PieceEnd(e, ps[|ps| - 1]) == |t|)
    && (forall k :: 0 <= k < |ps| - 1 ==> ps[k + 1].at == PieceEnd(e, ps[k]))
  }

  /** A kept character is one where no match starts; a link is a match, with the text it covers. */
  predicate Faithful(t: string, e: LinkEntry, pc: Piece) {
    pc.at < |t| &&
    match pc
    case Keep(at, c) => !MatchAt(t, e, at) && c == t[at]
    case Link(at, matched) => MatchAt(t, e, at) && matched == t[at..at + |e.phrase|]
  }

  /** `String.prototype.replace` with a global regular expression, from position i: the
      search resumes after each match, so matches are leftmost and never overlap, and every
      test looks at the text as it was before this replace. */
  function Pieces(t: string, e: LinkEntry, i: nat): (ps: seq<Piece>)
    requires i <= |t|
    decreases |t| - i
  {
    if i == |t| then []
    else
      var pc := NextPiece(t, e, i);
      [pc] + Pieces(t, e, PieceEnd(e, pc))
  }

  /** The output text of one piece: the kept character, or the anchor. */
  function PieceOutput(e: LinkEntry, pc: Piece): string
  {
    if pc.Keep? then [pc.c] else Anchor(e)
  }

  /** The output text of the pieces. */
  function Render(e: LinkEntry, ps: seq<Piece>): string
  {
    if ps == [] then "" else PieceOutput(e, ps[0]) + Render(e, ps[1..])
  }

  /** The input text of the pieces. */
  function Source(ps: seq<Piece>): string
  {
    if ps == [] then "" else PieceText(ps[0]) + Source(ps[1..])
  }

  lemma SourceCons(pc: Piece, rest: seq<Piece>)
    ensures Source([pc] + rest) == PieceText(pc) + Source(rest)
  {
    assert ([pc] + rest)[1..] == rest;
  }

  /** The pieces read back give the text they were cut from: nothing is lost or reordered. */
  lemma {:induction false} PiecesCoverText(t: string, e: LinkEntry, i: nat)
    requires i <= |t|
    ensures Source(Pieces(t, e, i)) == t[i..]
    decreases |t| - i
  {
    if i < |t| {
      var pc := NextPiece(t, e, i);
      var j := PieceEnd(e, pc);
      var rest := Pieces(t, e, j);
      assert Pieces(t, e, i) == [pc] + rest;
      SourceCons(pc, rest);
      PiecesCoverText(t, e, j);
      SlicesGlue(t, i, j, PieceText(pc), Source(rest));
    } else {
      assert t[i..] == [];
    }
  }

  /** The scan is the global replace: the pieces lie end to end over the text, each link is
      a match of the regular expression together with the text it covers, and no match
      starts at a kept character, so every match is the leftmost one after the previous. */
  lemma {:induction false} PiecesFaithful(t: string, e: LinkEntry, i: nat)
    requires i <= |t|
    ensures TilesFrom(t, e, i, Pieces(t, e, i))
    ensures forall k :: 0 <= k < |Pieces(t, e, i)| ==> Faithful(t, e, Pieces(t, e, i)[k])
    decreases |t| - i
  {
    if i < |t| {
      var pc := NextPiece(t, e, i);
      var j := PieceEnd(e, pc);
      var ps := Pieces(t, e, i);
      var rest := Pieces(t, e, j);
      PiecesFaithful(t, e, j);
      assert ps == [pc] + rest;
      if pc.Keep? {
        assert [pc.c] == t[i..i + 1];
      }
      assert Faithful(t, e, pc);
      forall k | 1 <= k < |ps|
        ensures Faithful(t, e, ps[k])
      {
        assert ps[k] == rest[k - 1];
      }
    }
  }

  /** `text.replace(regex, anchor)` for one table entry: a text in which the phrase does not
      occur, in any case, is left alone. */
  function ReplaceAll(t: string, e: LinkEntry): (r: string)
    ensures !ContainsPhrase(t, e.phrase) ==> r == t
  {
    ReplaceWithoutPhrase(t, e);
    Render(e, Pieces(t, e, 0))
  }

  lemma {:induction false} RenderAppend(e: LinkEntry, a: seq<Piece>, b: seq<Piece>)
    ensures Render(e, a + b) == Render(e, a) + Render(e, b)
    decreases |a|
  {
    if a != [] {
      assert Render(e, a + b) == PieceOutput(e, a[0]) + Render(e, a[1..] + b) by {
        assert (a + b)[0] == a[0] && (a + b)[1..] == a[1..] + b;
      }
      RenderAppend(e, a[1..], b);
    } else {
      assert a + b == b;
    }
  }

  lemma {:induction false} SourceAppend(a: seq<Piece>, b: seq<Piece>)
    ensures Source(a + b) == Source(a) + Source(b)
    decreases |a|
  {
    if a != [] {
      assert (a + b)[1..] == a[1..] + b;
      SourceAppend(a[1..], b);
    } else {
      assert a + b == b;
    }
  }

  /** The pieces from the k-th on are the scan restarted where the k-th piece starts. */
  lemma {:induction false} PiecesSuffix(t: string, e: LinkEntry, i: nat, k: nat)
    requires i <= |t| && k < |Pieces(t, e, i)|
    ensures i <= Pieces(t, e, i)[k].at < |t|
    ensures Pieces(t, e, i)[k..] == Pieces(t, e, Pieces(t, e, i)[k].at)
    decreases k
  {
    var ps := Pieces(t, e, i);
    var pc := NextPiece(t, e, i);
    if k == 0 {
      assert ps[0..] == ps;
    } else {
      var j := PieceEnd(e, pc);
      var rest := Pieces(t, e, j);
      assert ps == [pc] + rest;
      PiecesSuffix(t, e, j, k - 1);
      assert ps[k..] == rest[k - 1..];
    }
  }

  /** The pieces before the k-th cover exactly the text before it. */
  lemma TextBeforePiece(t: string, e: LinkEntry, k: nat)
    requires k < |Pieces(t, e, 0)|
    ensures Pieces(t, e, 0)[k].at <= |t| && Source(Pieces(t, e, 0)[..k]) == t[..Pieces(t, e, 0)[k].at]
  {
    var ps := Pieces(t, e, 0);
    PiecesSuffix(t, e, 0, k);
    var at := ps[k].at;
    PiecesCoverText(t, e, 0);
    PiecesCoverText(t, e, at);
    assert t[0..] == t;
    SourceBeforeSuffix(t, ps, k, at);
  }

  lemma SourceBeforeSuffix(t: string, ps: seq<Piece>, k: nat, at: nat)
    requires k < |ps| && at <= |t| && Source(ps) == t && Source(ps[k..]) == t[at..]
    ensures Source(ps[..k]) == t[..at]
  {
    assert Source(ps[..k]) + t[at..] == t by {
      assert ps[..k] + ps[k..] == ps;
      SourceAppend(ps[..k], ps[k..]);
    }
    PrefixBeforeSuffix(t, at, Source(ps[..k]));
  }

  /** The k-th piece, when it is a link, splits the scan into what comes before it, the link,
      and the scan restarted right after the match. */
  lemma LinkSplitsPieces(t: string, e: LinkEntry, k: nat)
    requires k < |Pieces(t, e, 0)| && Pieces(t, e, 0)[k].Link?
    ensures var ps := Pieces(t, e, 0); var at := ps[k].at;
      && at + |e.phrase| <= |t| && MatchAt(t, e, at)
      && ps == ps[..k] + ([ps[k]] + Pieces(t, e, at + |e.phrase|))
  {
    var ps := Pieces(t, e, 0);
    var at := ps[k].at;
    PiecesSuffix(t, e, 0, k);
    var tail := Pieces(t, e, at);
    var pc := NextPiece(t, e, at);
    assert tail == ps[k..];
    assert tail == [pc] + Pieces(t, e, PieceEnd(e, pc));
    assert pc == tail[0] == ps[k];
    assert ps == ps[..k] + tail;
  }

  /** A link at position k of the pieces renders as the anchor between what the pieces
      around it render. */
  lemma RenderAroundLink(e: LinkEntry, ps: seq<Piece>, k: nat, after: seq<Piece>)
    requires k < |ps| && ps[k].Link? && ps == ps[..k] + ([ps[k]] + after)
    ensures Render(e, ps) == Render(e, ps[..k]) + Anchor(e) + Render(e, after)
  {
    RenderAppend(e, ps[..k], [ps[k]] + after);
    assert ([ps[k]] + after)[1..] == after;
  }

  /** Every link the replace makes stands where its match stood: the output is what the
      pieces before it render, then the anchor with the table's spelling, whatever case the
      text used, then the replace of the text after the match. */
  lemma LinkReplacesMatch(t: string, e: LinkEntry, k: nat)
    requires k < |Pieces(t, e, 0)| && Pieces(t, e, 0)[k].Link?
    ensures var ps := Pieces(t, e, 0); var at := ps[k].at;
      && at + |e.phrase| <= |t|
      && ReplaceAll(t, e) == Render(e, ps[..k]) + Anchor(e) + Render(e, Pieces(t, e, at + |e.phrase|))
  {
    var ps := Pieces(t, e, 0);
    LinkSplitsPieces(t, e, k);
    RenderAroundLink(e, ps, k, Pieces(t, e, ps[k].at + |e.phrase|));
  }

  /** Where no match starts, the pieces are only kept characters and the text comes out unchanged. */
  lemma {:induction false} NoMatchKeepsText(t: string, e: LinkEntry, i: nat)
    requires i <= |t|
    requires forall p: nat :: i <= p < |t| ==> !MatchAt(t, e, p)
    ensures Render(e, Pieces(t, e, i)) == t[i..]
    decreases |t| - i
  {
    if i < |t| {
      var pc := NextPiece(t, e, i);
      var ps := Pieces(t, e, i);
      NoMatchKeepsText(t, e, i + 1);
      assert ps[0] == pc == Keep(i, t[i]) && ps[1..] == Pieces(t, e, i + 1);
      SlicesGlue(t, i, i + 1, [t[i]], t[i + 1..]);
    } else {
      assert t[i..] == [];
    }
  }

  /** Where the phrase does not occur, in any case, no match starts and the text is kept. */
  lemma ReplaceWithoutPhrase(t: string, e: LinkEntry)
    ensures !ContainsPhrase(t, e.phrase) ==> Render(e, Pieces(t, e, 0)) == t
  {
    if !ContainsPhrase(t, e.phrase) {
      NoMatchKeepsText(t, e, 0);
      assert t[0..] == t;
    }
  }

  //------------------------------------------------------------------
  // The fold over the table
  //------------------------------------------------------------------

  /** The text after the first n table entries have been applied, in table order; a text
      holding none of their phrases, in any case, comes through unchanged. */
  function ApplyEntries(t: string, n: nat): (r: string)
    requires n <= |Table|
    ensures (forall k :: 0 <= k < n ==> !ContainsPhrase(t, Table[k].phrase)) ==> r == t
  {
    if n == 0 then t else ReplaceAll(ApplyEntries(t, n - 1), Table[n - 1])
  }

  /** The whole rewrite, as a function for the callers that need one: a text that contains
      none of the phrases, in any case, is returned unchanged. */
  function PhrasesToLinks(t: string): (r: string)
    ensures (forall k :: 0 <= k < |Table| ==> !ContainsPhrase(t, Table[k].phrase)) ==> r == t
  {
    ApplyEntries(t, |Table|)
  }

  /** `convertPhrasesToLinks`: `result` starts as the text and is reassigned once per entry. */
  method ConvertPhrasesToLinks(text: string) returns (result: string)
    ensures result == PhrasesToLinks(text)
  {
    result := text;
    for k := 0 to |Table|
      invariant result == ApplyEntries(text, k)
    {
      var entry := Table[k];
      result := ReplaceAll(result, entry);
    }
  }

  lemma AttributesHaveNoMarkup()
    ensures '<' !in AnchorOpen[1..] && '<' !in AnchorAttributes
  {
    assert AnchorOpen[1..] == "a href=\"";
    assert '<' !in TargetAttribute && '<' !in RelAttribute;
    assert '<' !in StyleAttribute && '<' !in ColorAttribute;
  }

  /** A `</a>` reached from q without passing a `<` is seen by the lookahead at q. */
  lemma {:induction false} ClosingTagAhead(s: string, q: nat, close: nat)
    requires q <= close && ClosesAnchor(s, close) && '<' !in s[q..close]
    ensures AnchorAhead(s, q)
    decreases close - q
  {
    if q < close {
      assert s[q] == s[q..close][0];
      assert s[q + 1..close] == s[q..close][1..];
      ClosingTagAhead(s, q + 1, close);
    }
  }

  /** Inside `<` + inner + `</a>`, where inner holds no `<`, the lookahead always sees the `</a>`. */
  lemma ClosedTagGuards(pre: string, inner: string, post: string, q: nat)
    requires '<' !in inner
    requires 1 <= q <= 1 + |inner|
    ensures AnchorAhead(pre + (['<'] + inner + AnchorClose) + post, |pre| + q)
  {
    var s := pre + (['<'] + inner + AnchorClose) + post;
    var close := |pre| + 1 + |inner|;
    assert ClosesAnchor(s, close) by {
      assert s[close..close + 4] == AnchorClose;
    }
    assert s[|pre| + q..close] == inner[q - 1..];
    ClosingTagAhead(s, |pre| + q, close);
  }

  /** An anchor is `<`, then text without `<` when its url and phrase have none, then `</a>`. */
  lemma AnchorShape(e: LinkEntry) returns (inner: string)
    requires '<' !in e.url && '<' !in e.phrase
    ensures Anchor(e) == ['<'] + inner + AnchorClose && '<' !in inner
  {
    inner := AnchorOpen[1..] + e.url + AnchorAttributes + e.phrase;
    AttributesHaveNoMarkup();
    assert AnchorOpen == ['<'] + AnchorOpen[1..];
  }

  /** Text inside an anchor that a pass has emitted is followed, with no `<` in between, by
      its `</a>`: no later pass can end a match there, so links are never nested. */
  lemma AnchorGuardsItsInside(pre: string, e: LinkEntry, post: string, q: nat)
    requires '<' !in e.url && '<' !in e.phrase
    requires 1 <= q <= |Anchor(e)| - |AnchorClose|
    ensures AnchorAhead(pre + Anchor(e) + post, |pre| + q)
  {
    var inner := AnchorShape(e);
    ClosedTagGuards(pre, inner, post, q);
  }

  /** An example: the lower-case text "linkedin" becomes the link spelled "LinkedIn". The
      general statement, for every link of every text, is `LinkReplacesMatch`. */
  lemma LowerCaseOccurrenceIsLinked()
    ensures ReplaceAll("linkedin", Table[0]) == Anchor(Table[0])
  {
    var t := "linkedin";
    var e := Table[0];
    assert e.phrase == "LinkedIn";
    assert CaseMatchAt(t, e.phrase, 0);
    assert MatchAt(t, e, 0);
    assert t[0..8] == t;
    assert NextPiece(t, e, 0) == Link(0, t);
    assert Pieces(t, e, 8) == [];
    assert Pieces(t, e, 0) == [Link(0, t)];
    assert Render(e, [Link(0, t)]) == Anchor(e) + Render(e, []);
  }
}
