/** The post-processing util/ai.py applies to the output of its models.
    The models themselves (a captioning/detection network and an OCR
    network) are not modelled: their raw outputs are the inputs here. */
module Ai {
  import opened Text

  /** `generate_caption`: the model's caption with outer whitespace removed. */
  function GenerateCaption(raw: string): (r: string)
    ensures IsStripped(r) && Strip(r) == r
    ensures StripStart(raw) + |r| <= |raw| && r == raw[StripStart(raw)..StripStart(raw) + |r|]
  {
    StripShape(raw);
    StrippedIsFixed(Strip(raw));
    Strip(raw)
  }

  /** Lines that are stripped and not blank. */
  predicate CleanLines(lines: seq<string>) {
    forall k :: 0 <= k < |lines| ==> lines[k] != [] && IsStripped(lines[k])
  }

  predicate Distinct<T(==)>(s: seq<T>) {
    forall i, j :: 0 <= i < j < |s| ==> s[i] != s[j]
  }

  /** `generate_labels`: `list(set(labels))`, every label once. Python does not
      fix the order of a set; this model keeps first occurrences in order. */
  function GenerateLabels(raw: seq<string>): (r: seq<string>)
    ensures Distinct(r)
    ensures forall x :: x in r <==> x in raw
    ensures |r| <= |raw|
  {
    if raw == [] then []
    else
      var r := GenerateLabels(raw[..|raw| - 1]);
      var x := raw[|raw| - 1];
      assert raw == raw[..|raw| - 1] + [x];
      if x in r then r else r + [x]
  }

  /** The list comprehension in `detect_text`, applied to the pieces of the
      rendered text: strip each piece and keep the non-empty ones. */
  function KeepNonBlank(pieces: seq<string>): (r: seq<string>)
    ensures forall k :: 0 <= k < |r| ==> r[k] != [] && IsStripped(r[k])
    ensures |r| <= |pieces|
  {
    if pieces == [] then [] else KeepLine(pieces[0]) + KeepNonBlank(pieces[1..])
  }

  /** One piece of the comprehension: its stripped text, if not blank. */
  function KeepLine(piece: string): (r: seq<string>)
    ensures |r| <= 1
    ensures forall k :: 0 <= k < |r| ==> r[k] != [] && IsStripped(r[k])
  {
    var line := Strip(piece);
    if line != [] then [line] else []
  }

  /** `detect_text`: the rendered OCR text split at newlines, each line
      stripped, blank lines dropped. */
  function DetectText(rendered: string): (r: seq<string>)
    ensures CleanLines(r)
  {
    KeepNonBlank(Split(rendered, '\n'))
  }

  lemma {:induction false} KeepNonBlankAppend(a: seq<string>, b: seq<string>)
    ensures KeepNonBlank(a + b) == KeepNonBlank(a) + KeepNonBlank(b)
  {
    if a == [] {
      assert a + b == b;
    } else {
      var ab := a + b;
      assert ab[0] == a[0] && ab[1..] == a[1..] + b;
      KeepNonBlankAppend(a[1..], b);
    }
  }

  /** No returned line holds a newline, given pieces without one. */
  lemma {:induction false} KeepNonBlankNoSeparator(pieces: seq<string>, sep: char)
    requires forall k :: 0 <= k < |pieces| ==> sep !in pieces[k]
    ensures forall k :: 0 <= k < |KeepNonBlank(pieces)| ==> sep !in KeepNonBlank(pieces)[k]
  {
    if pieces != [] {
      StripShape(pieces[0]);
      KeepNonBlankNoSeparator(pieces[1..], sep);
    }
  }

  /** Every line `detect_text` returns is stripped, non-empty and has no newline. */
  lemma DetectTextLines(rendered: string)
    ensures forall k :: 0 <= k < |DetectText(rendered)| ==>
      var line := DetectText(rendered)[k];
      line != [] && Strip(line) == line && '\n' !in line
  {
    KeepNonBlankNoSeparator(Split(rendered, '\n'), '\n');
    forall k | 0 <= k < |DetectText(rendered)| ensures Strip(DetectText(rendered)[k]) == DetectText(rendered)[k] {
      StrippedIsFixed(DetectText(rendered)[k]);
    }
  }

  /** Lines keep the order of the rendered text: the lines of a text made of
      a first line, a newline and the rest are the first line's (if it is not
      blank) followed by the rest's. */
  lemma DetectTextOrder(first: string, rest: string)
    requires '\n' !in first
    ensures DetectText(first + "\n" + rest) == DetectText(first) + DetectText(rest)
  {
    SplitAppend(first, rest, '\n');
    assert Split(first, '\n') == [first];
    KeepNonBlankAppend([first], Split(rest, '\n'));
  }
}
