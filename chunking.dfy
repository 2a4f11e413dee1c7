/** The large-text splitter of the AI summary service (`chunk_text` in
    apps/api/app/services/gemini_ai.py): the text is cut greedily into windows
    of at most `max` characters, and each cut is pulled back to just after a
    natural break found in the last tenth of the window. */
module Chunking {

  /** The break patterns, most preferred first: paragraph break, section
      headers, file boundaries of the repository dump, code structure,
      closing brace, any newline, sentence end, word boundary. */
  const BreakPatterns: seq<string> := [
    "\n\n", "\n=", "\n-", "\nFILE:", "\nclass ", "\nfunction ",
    "\nexport ", "\nimport ", "\n}", "\n", ". ", " "
  ]

  lemma BreakPatternsNonEmpty()
    ensures forall k :: 0 <= k < |BreakPatterns| ==> |BreakPatterns[k]| >= 1
  {
  }

  /** `pat` occurs in `s` starting at position `i`. */
  predicate OccursAt(s: string, pat: string, i: int)
  {
    0 <= i && i + |pat| <= |s| && s[i..i + |pat|] == pat
  }

  /** `s.rfind(pat)`: the highest position at which `pat` occurs, or -1. */
  function RFind(s: string, pat: string): (r: int)
    ensures r >= 0 ==> OccursAt(s, pat, r)
    ensures r == -1 || r >= 0
    ensures forall i :: r < i ==> !OccursAt(s, pat, i)
  {
    RFindAtMost(s, pat, |s| - |pat|)
  }

  /** The highest position `<= i` at which `pat` occurs, or -1. */
  function RFindAtMost(s: string, pat: string, i: int): (r: int)
    requires i <= |s| - |pat|
    ensures r == -1 || 0 <= r <= i
    ensures r >= 0 ==> OccursAt(s, pat, r)
    ensures forall j :: r < j <= i ==> !OccursAt(s, pat, j)
    decreases i + 1
  {
    if i < 0 then -1
    else if s[i..i + |pat|] == pat then i
    else RFindAtMost(s, pat, i - 1)
  }

  /** Index of the first pattern of `pats` that occurs in `w`, or `|pats|`
      when none does. */
  function FirstMatching(w: string, pats: seq<string>): (k: nat)
    ensures k <= |pats|
    ensures forall j :: 0 <= j < k ==> RFind(w, pats[j]) == -1
    ensures k < |pats| ==> RFind(w, pats[k]) != -1
  {
    if pats == [] then 0
    else if RFind(w, pats[0]) != -1 then 0
    else 1 + FirstMatching(w, pats[1..])
  }

  /** Where a cut whose window is `text[searchStart..endIndex]` lands, for
      the patterns `pats` tried in order. */
  function BreakPointWith(text: string, searchStart: nat, endIndex: nat, pats: seq<string>): (b: nat)
    requires searchStart <= endIndex <= |text|
    requires forall k :: 0 <= k < |pats| ==> |pats[k]| >= 1
    ensures searchStart <= b <= endIndex
    ensures b == searchStart ==> searchStart == endIndex
  {
    var w := text[searchStart..endIndex];
    var k := FirstMatching(w, pats);
    if k < |pats| then searchStart + RFind(w, pats[k]) + |pats[k]| else endIndex
  }

  /** Where a cut whose window is `text[searchStart..endIndex]` lands. */
  function BreakPoint(text: string, searchStart: nat, endIndex: nat): (b: nat)
    requires searchStart <= endIndex <= |text|
    ensures searchStart <= b <= endIndex
    ensures b == searchStart ==> searchStart == endIndex
  {
    BreakPatternsNonEmpty();
    BreakPointWith(text, searchStart, endIndex, BreakPatterns)
  }

  /** The first pattern found is the first one whose search succeeds. */
  lemma FirstMatchingIs(w: string, pats: seq<string>, p: nat)
    requires p <= |pats|
    requires forall j :: 0 <= j < p ==> RFind(w, pats[j]) == -1
    requires p < |pats| ==> RFind(w, pats[p]) != -1
    ensures FirstMatching(w, pats) == p
  {
  }

  /** The break rule: when pattern `p` is the most preferred pattern that
      occurs in the window, the cut lands just after its last occurrence. */
  lemma BreakPointRule(text: string, searchStart: nat, endIndex: nat, p: nat)
    requires searchStart <= endIndex <= |text|
    requires p < |BreakPatterns|
    requires exists i :: OccursAt(text[searchStart..endIndex], BreakPatterns[p], i)
    requires forall q, i :: 0 <= q < p ==> !OccursAt(text[searchStart..endIndex], BreakPatterns[q], i)
    ensures exists i :: && OccursAt(text[searchStart..endIndex], BreakPatterns[p], i)
                        && (forall j :: i < j ==> !OccursAt(text[searchStart..endIndex], BreakPatterns[p], j))
                        && BreakPoint(text, searchStart, endIndex) == searchStart + i + |BreakPatterns[p]|
  {
    var w := text[searchStart..endIndex];
    var r := RFind(w, BreakPatterns[p]);
    assert FirstMatching(w, BreakPatterns) == p;
    assert OccursAt(w, BreakPatterns[p], r);
  }

  /** When no pattern occurs in the window, the cut stays at the window's end. */
  lemma BreakPointNoPattern(text: string, searchStart: nat, endIndex: nat)
    requires searchStart <= endIndex <= |text|
    requires forall q, i :: 0 <= q < |BreakPatterns| ==> !OccursAt(text[searchStart..endIndex], BreakPatterns[q], i)
    ensures BreakPoint(text, searchStart, endIndex) == endIndex
  {
  }

  /** The end of the chunk that starts at `current`. The window is the last
      `max / 10` characters before `current + max`; a chunk that would reach
      the end of the text is not pulled back. */
  function CutPoint(text: string, max: int, current: nat): (c: nat)
    requires max >= 1 && current < |text|
    ensures current < c <= |text|
    ensures c - current <= max
    ensures c < |text| ==> c - current >= max - max / 10
    ensures c < |text| && max >= 10 ==> c - current > max - max / 10
  {
    var endIndex := current + max;
    if endIndex < |text| then BreakPoint(text, endIndex - max / 10, endIndex) else |text|
  }

  /** The chunks produced from position `current` on. */
  function ChunksFrom(text: string, max: int, current: nat): seq<string>
    requires max >= 1 && current <= |text|
    decreases |text| - current
  {
    if current == |text| then []
    else
      var c := CutPoint(text, max, current);
      [text[current..c]] + ChunksFrom(text, max, c)
  }

  /** What `chunk_text(text, max)` returns. A text that fits is returned whole
      (the empty text as `[""]`); with a negative `max` the empty text gives
      no chunk at all, because the loop never runs. */
  function ChunkSpec(text: string, max: int): seq<string>
    requires max >= 1 || text == []
  {
    if |text| <= max then [text]
    else if text == [] then []
    else ChunksFrom(text, max, 0)
  }

  function Concat(chunks: seq<string>): string
  {
    if chunks == [] then [] else chunks[0] + Concat(chunks[1..])
  }

  lemma {:induction false} ChunksFromConcat(text: string, max: int, current: nat)
    requires max >= 1 && current <= |text|
    ensures Concat(ChunksFrom(text, max, current)) == text[current..]
    decreases |text| - current
  {
    if current < |text| {
      var c := CutPoint(text, max, current);
      var rest := ChunksFrom(text, max, c);
      ChunksFromStep(text, max, current);
      ChunksFromConcat(text, max, c);
      ConcatCons(text[current..c], rest);
      assert text[current..] == text[current..c] + text[c..];
    }
  }

  lemma ConcatCons(chunk: string, rest: seq<string>)
    ensures Concat([chunk] + rest) == chunk + Concat(rest)
  {
    assert ([chunk] + rest)[1..] == rest;
  }

  lemma {:induction false} ChunksFromBounds(text: string, max: int, current: nat)
    requires max >= 1 && current <= |text|
    ensures var cs := ChunksFrom(text, max, current);
      && (cs == [] <==> current == |text|)
      && (forall k :: 0 <= k < |cs| ==> 1 <= |cs[k]| <= max)
      && (forall k :: 0 <= k < |cs| - 1 ==> |cs[k]| >= max - max / 10)
      && (max >= 10 ==> forall k :: 0 <= k < |cs| - 1 ==> |cs[k]| > max - max / 10)
    decreases |text| - current
  {
    if current < |text| {
      var c := CutPoint(text, max, current);
      ChunksFromBounds(text, max, c);
      var cs := ChunksFrom(text, max, current);
      assert cs[0] == text[current..c] && cs[1..] == ChunksFrom(text, max, c);
      forall k | 1 <= k < |cs| ensures cs[k] == ChunksFrom(text, max, c)[k - 1] {
      }
    }
  }

  /** Round trip: the chunks, concatenated in order, give back the text. */
  lemma ChunkSpecConcat(text: string, max: int)
    requires max >= 1 || text == []
    ensures Concat(ChunkSpec(text, max)) == text
  {
    if |text| <= max {
      assert Concat([text]) == text + Concat([]);
    } else if text != [] {
      ChunksFromConcat(text, max, 0);
    }
  }

  /** For a non-empty text every chunk is non-empty and at most `max` long,
      and every chunk but the last is at least `max - max / 10` long
      (strictly longer once the window is non-empty, `max >= 10`). */
  lemma ChunkSpecBounds(text: string, max: int)
    requires max >= 1 && text != []
    ensures var cs := ChunkSpec(text, max);
      && |cs| >= 1
      && (forall k :: 0 <= k < |cs| ==> 1 <= |cs[k]| <= max)
      && (forall k :: 0 <= k < |cs| - 1 ==> |cs[k]| >= max - max / 10)
      && (max >= 10 ==> forall k :: 0 <= k < |cs| - 1 ==> |cs[k]| > max - max / 10)
  {
    if |text| > max {
      ChunksFromBounds(text, max, 0);
    }
  }

  /** For a positive size there is always at least one chunk. */
  lemma ChunkSpecNonEmpty(text: string, max: int)
    requires max >= 1
    ensures |ChunkSpec(text, max)| >= 1
  {
    if |text| > max {
      ChunksFromBounds(text, max, 0);
    }
  }

  /** The inner search of `chunk_text`: try the patterns in order of
      preference and stop at the first one found in the window. */
  method FindBreakPoint(text: string, searchStart: nat, endIndex: nat, pats: seq<string>) returns (breakPoint: nat)
    requires searchStart <= endIndex <= |text|
    requires forall k :: 0 <= k < |pats| ==> |pats[k]| >= 1
    ensures breakPoint == BreakPointWith(text, searchStart, endIndex, pats)
  {
    breakPoint := endIndex;
    var searchText := text[searchStart..endIndex];
    for p := 0 to |pats|
      invariant forall j :: 0 <= j < p ==> RFind(searchText, pats[j]) == -1
    {
      var lastOccurrence := RFind(searchText, pats[p]);
      if lastOccurrence != -1 {
        FirstMatchingIs(searchText, pats, p);
        breakPoint := searchStart + lastOccurrence + |pats[p]|;
        return;
      }
    }
    FirstMatchingIs(searchText, pats, |pats|);
  }

  /** One step of `chunk_text`'s loop: the end of the chunk starting at `currentIndex`. */
  method NextCut(text: string, maxCharsPerChunk: int, currentIndex: nat) returns (endIndex: nat)
    requires maxCharsPerChunk >= 1 && currentIndex < |text|
    ensures endIndex == CutPoint(text, maxCharsPerChunk, currentIndex)
  {
    endIndex := currentIndex + maxCharsPerChunk;
    if endIndex < |text| {
      var searchStart := endIndex - maxCharsPerChunk / 10;
      BreakPatternsNonEmpty();
      endIndex := FindBreakPoint(text, searchStart, endIndex, BreakPatterns);
    } else {
      // The slice stops at the end of the text, and the loop ends with this chunk.
      endIndex := |text|;
    }
  }

  /** `chunk_text` as the service runs it: a cursor walks the text; each cut
      looks for the first break pattern, in order of preference, that occurs
      in the window and cuts just after its last occurrence. */
  method ChunkText(text: string, maxCharsPerChunk: int) returns (chunks: seq<string>)
    requires maxCharsPerChunk >= 1 || text == []
    ensures chunks == ChunkSpec(text, maxCharsPerChunk)
    ensures Concat(chunks) == text
    ensures |text| <= maxCharsPerChunk ==> chunks == [text]
    ensures maxCharsPerChunk >= 1 && text != [] ==>
      forall k :: 0 <= k < |chunks| ==> 1 <= |chunks[k]| <= maxCharsPerChunk
  {
    if |text| <= maxCharsPerChunk {
      chunks := [text];
    } else if text == [] {
      // A negative size: the loop never runs.
      chunks := [];
    } else {
      chunks := ChunkLoop(text, maxCharsPerChunk);
    }
    ChunkSpecConcat(text, maxCharsPerChunk);
    if maxCharsPerChunk >= 1 && text != [] {
      ChunkSpecBounds(text, maxCharsPerChunk);
    }
  }

  /** The loop of `chunk_text`, for a text longer than one chunk. */
  method ChunkLoop(text: string, maxCharsPerChunk: int) returns (chunks: seq<string>)
    requires 1 <= maxCharsPerChunk < |text|
    ensures chunks == ChunksFrom(text, maxCharsPerChunk, 0)
  {
    chunks := [];
    var currentIndex := 0;
    while currentIndex < |text|
      invariant 0 <= currentIndex <= |text|
      invariant chunks + ChunksFrom(text, maxCharsPerChunk, currentIndex) == ChunksFrom(text, maxCharsPerChunk, 0)
      decreases |text| - currentIndex
    {
      var endIndex := NextCut(text, maxCharsPerChunk, currentIndex);
      ChunksFromStep(text, maxCharsPerChunk, currentIndex);
      var chunk := text[currentIndex..endIndex];
      var rest := ChunksFrom(text, maxCharsPerChunk, endIndex);
      assert chunks + ([chunk] + rest) == (chunks + [chunk]) + rest;
      chunks := chunks + [chunk];
      currentIndex := endIndex;
    }
    assert chunks + [] == chunks;
  }

  lemma ChunksFromStep(text: string, max: int, current: nat)
    requires max >= 1 && current < |text|
    ensures var c := CutPoint(text, max, current);
      ChunksFrom(text, max, current) == [text[current..c]] + ChunksFrom(text, max, c)
  {
  }
}
