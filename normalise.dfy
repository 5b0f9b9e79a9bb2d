/**
 * Turning a tool's raw result into the string a tool message carries
 * (tool-test/src/mcp-test.mjs, lines 80-95), and the "\n" join and split
 * that give the content-array case its meaning.
 */
module Normalisation {
  import opened Wrappers
  import opened Messages

  /** One element of a result's `content` array: its `type` and its `text` (None when absent). */
  datatype Part = Part(kind: string, text: Option<string>)

  /**
   * A JSON value that is neither a string nor an object: `null`, a boolean,
   * a number or an array. Strings and objects are results of their own kind.
   */
  type Opaque = j: Json | !j.JString? && !j.JObject? witness JNull

  /**
   * The shapes a tool result can take, as far as normalisation looks at them.
   * `Obj.content` is `Some` exactly when the object's `content` is an array
   * (an empty array included); `None` covers an absent, falsy or non-array
   * `content`. `Obj.text` is `None` when the field is absent.
   */
  datatype ToolResult =
    | Str(s: string)
    | Obj(content: Option<seq<Part>>, text: Option<string>)
    | Other(value: Opaque)

  /** The string a part contributes to the join: its text when it is a text part, else "". */
  function PartText(p: Part): string {
    if p.kind == "text" then p.text.GetOr("") else ""
  }

  /** The strings the parts contribute, one per part, in order. */
  function PartTexts(parts: seq<Part>): (ts: seq<string>)
    ensures |ts| == |parts|
  {
    seq(|parts|, i requires 0 <= i < |parts| => PartText(parts[i]))
  }

  /** `xs.join("\n")`: the strings with one newline between neighbours. */
  function JoinLines(xs: seq<string>): string {
    if |xs| == 0 then ""
    else if |xs| == 1 then xs[0]
    else xs[0] + "\n" + JoinLines(xs[1..])
  }

  /** `s.split("\n")`: the maximal newline-free pieces of `s`; never empty. */
  function SplitLines(s: string): (lines: seq<string>)
    ensures |lines| > 0
    ensures forall i :: 0 <= i < |lines| ==> '\n' !in lines[i]
  {
    if s == "" then [""]
    else
      var rest := SplitLines(s[1..]);
      if s[0] == '\n' then [""] + rest
      else [[s[0]] + rest[0]] + rest[1..]
  }

  /**
   * The normalised content of a tool result. `stringify` stands for
   * `JSON.stringify`, whose output format is not part of this model.
   */
  function Normalise(r: ToolResult, stringify: ToolResult -> string): string {
    match r
    case Str(s) => s
    case Obj(content, text) =>
      if content.Some? then JoinLines(PartTexts(content.value))
      else if text.Some? && text.value != "" then text.value
      else stringify(r)
    case Other(_) => stringify(r)
  }

  /** Splitting text that starts with a newline-free piece `x` glues `x` onto the first line. */
  lemma {:induction false} SplitAfterPiece(x: string, s: string)
    requires '\n' !in x
    ensures SplitLines(x + s) == [x + SplitLines(s)[0]] + SplitLines(s)[1..]
  {
    if x != "" {
      assert (x + s)[0] == x[0];
      assert (x + s)[1..] == x[1..] + s;
      SplitAfterPiece(x[1..], s);
      assert [x[0]] + (x[1..] + SplitLines(s)[0]) == x + SplitLines(s)[0];
    } else {
      assert x + s == s;
      assert x + SplitLines(s)[0] == SplitLines(s)[0];
      assert SplitLines(s) == [SplitLines(s)[0]] + SplitLines(s)[1..];
    }
  }

  /** Splitting undoes joining, for a non-empty list of newline-free strings. */
  lemma {:induction false} SplitJoinLines(xs: seq<string>)
    requires |xs| > 0
    requires forall i :: 0 <= i < |xs| ==> '\n' !in xs[i]
    ensures SplitLines(JoinLines(xs)) == xs
  {
    if |xs| == 1 {
      SplitAfterPiece(xs[0], "");
      assert xs[0] + "" == xs[0];
    } else {
      var tail := JoinLines(xs[1..]);
      SplitJoinLines(xs[1..]);
      assert xs[0] + "\n" + tail == xs[0] + ("\n" + tail);
      SplitAfterPiece(xs[0], "\n" + tail);
      assert ("\n" + tail)[0] == '\n' && ("\n" + tail)[1..] == tail;
      assert SplitLines("\n" + tail) == [""] + xs[1..];
      assert xs[0] + "" == xs[0];
      assert xs == [xs[0]] + xs[1..];
    }
  }

  /**
   * An object whose `content` is a non-empty array normalises to one line per
   * part, in order: a text part's text, or "" for any other part, as long as
   * no text holds a newline of its own.
   */
  lemma ContentLinesArePartTexts(parts: seq<Part>, text: Option<string>, stringify: ToolResult -> string)
    requires |parts| > 0
    requires forall i :: 0 <= i < |parts| ==> '\n' !in PartText(parts[i])
    ensures SplitLines(Normalise(Obj(Some(parts), text), stringify)) == PartTexts(parts)
  {
    SplitJoinLines(PartTexts(parts));
  }

  /** An empty `content` array is still an array: it gives "", whatever `text` holds. */
  lemma EmptyContentArrayIsEmpty(text: Option<string>, stringify: ToolResult -> string)
    ensures Normalise(Obj(Some([]), text), stringify) == ""
  {
  }

  /** A text part followed by an image part gives the text and a trailing newline. */
  lemma TextThenImage(a: string, stringify: ToolResult -> string)
    ensures Normalise(Obj(Some([Part("text", Some(a)), Part("image", None)]), None), stringify) == a + "\n"
  {
    var parts := [Part("text", Some(a)), Part("image", None)];
    assert PartTexts(parts) == [a, ""];
    assert JoinLines([a, ""]) == a + "\n" + JoinLines([""]);
  }

  /** An empty `text` is falsy: the object falls through to serialisation. */
  lemma EmptyTextIsSerialised(stringify: ToolResult -> string)
    ensures Normalise(Obj(None, Some("")), stringify) == stringify(Obj(None, Some("")))
  {
  }

  /**
   * Serialisation is only reached for results that are neither a string, nor
   * an object with a `content` array, nor an object with a non-empty `text`:
   * for all others any two serialisers give the same string. A string passes
   * through unchanged and a non-empty `text` is taken as it is.
   */
  lemma SerialiserOnlyForUnrecognised(r: ToolResult, f: ToolResult -> string, g: ToolResult -> string)
    ensures r.Str? ==> Normalise(r, f) == r.s
    ensures r.Obj? && r.content.None? && r.text.Some? && r.text.value != "" ==> Normalise(r, f) == r.text.value
    ensures Normalise(r, f) != Normalise(r, g) ==>
      r.Other? || (r.Obj? && r.content.None? && (r.text.None? || r.text.value == ""))
  {
  }
}
