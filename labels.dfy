/** The text safety formatter (`calculate_text_safe_name`): it clamps a display
    label to a width, wrapping longer text onto at most two lines. */
module Labels {

  function Min(a: int, b: int): int { if a <= b then a else b }

  /** The successive `width`-character slices of `s`, the last one possibly
      shorter: what slicing at 0, width, 2*width, ... yields. */
  function Chunks(s: string, width: nat): seq<string>
    requires width > 0
    decreases |s|
  {
    if s == [] then []
    else if |s| <= width then [s]
    else [s[..width]] + Chunks(s[width..], width)
  }

  /** Chunking loses nothing and reorders nothing: every chunk is non-empty and
      at most `width` long, and the chunks laid end to end give back the text. */
  lemma {:induction false} ChunksPartition(s: string, width: nat)
    requires width > 0
    ensures forall k :: 0 <= k < |Chunks(s, width)| ==> 0 < |Chunks(s, width)[k]| <= width
    ensures Concat(Chunks(s, width)) == s
    decreases |s|
  {
    if |s| > width {
      var r := Chunks(s, width);
      ChunksPartition(s[width..], width);
      assert r[1..] == Chunks(s[width..], width);
      assert s == s[..width] + s[width..];
    }
  }

  /** The chunks laid end to end. */
  function Concat(lines: seq<string>): string
  {
    if lines == [] then "" else lines[0] + Concat(lines[1..])
  }

  /** The lines joined with a line break between neighbours (`'\n'.join`). */
  function JoinLines(lines: seq<string>): string
  {
    if lines == [] then ""
    else if |lines| == 1 then lines[0]
    else lines[0] + "\n" + JoinLines(lines[1..])
  }

  /** The clamped label, as the source computes it: "Unknown" for empty text,
      the text itself when it fits, otherwise its first two chunks on two lines. */
  function SafeName(text: string, width: nat): string
    requires width > 0
  {
    if text == "" then "Unknown"
    else if |text| <= width then text
    else
      var lines := Chunks(text, width);
      JoinLines(lines[..Min(2, |lines|)])
  }

  /** Unfolding one step of `Chunks` on text longer than the width. */
  lemma ChunksStep(s: string, width: nat)
    requires width > 0 && |s| > width
    ensures Chunks(s, width) == [s[..width]] + Chunks(s[width..], width)
  {
  }

  /** The first chunk of non-empty text is its first `width` characters. */
  lemma ChunksHead(s: string, width: nat)
    requires width > 0 && |s| > 0
    ensures |Chunks(s, width)| > 0 && Chunks(s, width)[0] == s[..Min(width, |s|)]
  {
    if |s| > width {
      ChunksStep(s, width);
    }
  }

  /** Overlong text becomes exactly two lines of at most `width` characters,
      which together are the first `2 * width` characters of the text. */
  lemma LongTextClampsToTwoLines(text: string, width: nat)
    requires width > 0 && |text| > width
    ensures SafeName(text, width) ==
      text[..width] + "\n" + text[width..Min(2 * width, |text|)]
  {
    var rest := text[width..];
    ChunksStep(text, width);
    ChunksHead(rest, width);
    var lines := Chunks(text, width);
    var second := text[width..Min(2 * width, |text|)];
    assert rest[..Min(width, |rest|)] == second;
    assert lines[..2] == [text[..width], second];
    assert JoinLines([text[..width], second]) == text[..width] + "\n" + second by {
      assert [text[..width], second][1..] == [second];
    }
  }

  /** The fixed points of the clamp: empty text becomes "Unknown", text within
      the width is kept as it is. */
  lemma ShortTextUnchanged(text: string, width: nat)
    requires width > 0 && |text| <= width
    ensures text == "" ==> SafeName(text, width) == "Unknown"
    ensures text != "" ==> SafeName(text, width) == text
  {
  }

  /** The chunks of `text` from position `i` on. */
  function ChunksFrom(text: string, i: nat, width: nat): seq<string>
    requires width > 0
  {
    if i >= |text| then [] else Chunks(text[i..], width)
  }

  lemma ChunksFromStep(text: string, i: nat, width: nat)
    requires width > 0 && i < |text|
    ensures ChunksFrom(text, i, width) ==
      [text[i..Min(i + width, |text|)]] + ChunksFrom(text, i + width, width)
  {
    if i + width < |text| {
      ChunksStep(text[i..], width);
      assert text[i..][width..] == text[i + width..];
      assert text[i..][..width] == text[i..Min(i + width, |text|)];
    } else {
      assert text[i..Min(i + width, |text|)] == text[i..];
    }
  }

  /** The source's chunking loop: one slice per step of `width`. */
  method ChunkText(text: string, width: nat) returns (lines: seq<string>)
    requires width > 0
    ensures lines == Chunks(text, width)
  {
    lines := [];
    var i := 0;
    while i < |text|
      invariant 0 <= i
      invariant Chunks(text, width) == lines + ChunksFrom(text, i, width)
      decreases |text| - i
    {
      var chunk := text[i..Min(i + width, |text|)];
      ChunksFromStep(text, i, width);
      ghost var rest := ChunksFrom(text, i + width, width);
      assert lines + ([chunk] + rest) == (lines + [chunk]) + rest;
      lines := lines + [chunk];
      i := i + width;
    }
    assert ChunksFrom(text, i, width) == [];
  }

  /** The source's clamp: the two early returns, then the chunks with the
      first two kept. */
  method CalculateTextSafeName(text: string, width: nat) returns (r: string)
    requires width > 0
    ensures r == SafeName(text, width)
    ensures text == "" ==> r == "Unknown"
    ensures 0 < |text| <= width ==> r == text
    ensures |text| > width ==> r == text[..width] + "\n" + text[width..Min(2 * width, |text|)]
  {
    if text == "" {
      return "Unknown";
    }
    if |text| <= width {
      return text;
    }
    var lines := ChunkText(text, width);
    r := JoinLines(lines[..Min(2, |lines|)]);
    LongTextClampsToTwoLines(text, width);
  }

  /** The three widths the diagram uses: VPC 20, subnet 15, leaf 12; e.g.
      a 16-character name clamped to 15 keeps its last character on a second line. */
  lemma ClampExample()
    ensures SafeName("ExactlyFifteenCh", 15) == "ExactlyFifteenC\nh"
    ensures SafeName("", 15) == "Unknown"
  {
    LongTextClampsToTwoLines("ExactlyFifteenCh", 15);
  }
}
