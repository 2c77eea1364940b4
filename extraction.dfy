/**
 * The JSON-extraction heuristic both fetch operations apply to the model's
 * answer before parsing it: trim, then keep the span from the first `{` to the
 * last `}` when that span exists, else keep the trimmed text.
 */
module Extraction {
  import opened JsString

  /** `t` holds some `{` strictly before some `}`. */
  predicate HasBracePair(t: string) {
    exists a, b :: 0 <= a < b < |t| && t[a] == '{' && t[b] == '}'
  }

  /** The text handed to `JSON.parse`. */
  function ExtractJson(raw: string): (r: string)
    ensures |r| <= |raw|
    ensures r == Trim(raw) || (|r| >= 2 && r[0] == '{' && r[|r| - 1] == '}')
  {
    TrimNoLonger(raw);
    SliceOutermostBraces(Trim(raw))
  }

  /** The slicing step on the already trimmed `text`. */
  function SliceOutermostBraces(text: string): (r: string)
    ensures |r| <= |text|
    ensures r == text || (|r| >= 2 && r[0] == '{' && r[|r| - 1] == '}')
  {
    var jsonStartIndex := IndexOf(text, '{');
    var jsonEndIndex := LastIndexOf(text, '}');
    if jsonStartIndex != -1 && jsonEndIndex != -1 && jsonEndIndex > jsonStartIndex then
      text[jsonStartIndex..jsonEndIndex + 1]
    else
      text
  }

  /** The guard of the slice holds exactly when the text has a `{` before a `}`. */
  lemma SliceGuardIff(t: string)
    ensures (IndexOf(t, '{') != -1 && LastIndexOf(t, '}') != -1
             && LastIndexOf(t, '}') > IndexOf(t, '{')) <==> HasBracePair(t)
  {
    var i, j := IndexOf(t, '{'), LastIndexOf(t, '}');
    if HasBracePair(t) {
      var a, b :| 0 <= a < b < |t| && t[a] == '{' && t[b] == '}';
      IndexOfIsFirst(t, '{', a);
      LastIndexOfIsLast(t, '}', b);
    }
  }

  /**
   * With `a` the first `{` and `b` the last `}` of the text and `a < b`, the
   * slice is the inclusive span from `a` to `b`.
   */
  lemma SliceIsOutermostSpan(t: string, a: nat, b: nat)
    requires
      && a < b < |t| && t[a] == '{' && t[b] == '}'
      && (forall k :: 0 <= k < a ==> t[k] != '{')
      && (forall k :: b < k < |t| ==> t[k] != '}')
    ensures SliceOutermostBraces(t) == t[a..b + 1]
  {
    assert HasBracePair(t);
    SliceSpan(t);
    IndexOfIsFirst(t, '{', a);
    LastIndexOfIsLast(t, '}', b);
    assert IndexOf(t, '{') == a;
    assert LastIndexOf(t, '}') == b;
  }

  /**
   * With `a` the first `{` and `b` the last `}` of the trimmed text and `a < b`,
   * the extracted text is the inclusive span from `a` to `b`.
   */
  lemma ExtractIsOutermostSpan(raw: string, a: nat, b: nat)
    requires var t := Trim(raw);
      && a < b < |t| && t[a] == '{' && t[b] == '}'
      && (forall k :: 0 <= k < a ==> t[k] != '{')
      && (forall k :: b < k < |t| ==> t[k] != '}')
    ensures ExtractJson(raw) == Trim(raw)[a..b + 1]
  {
    SliceIsOutermostSpan(Trim(raw), a, b);
  }

  /**
   * When the text has a `{` before a `}`, the slice starts with `{`, ends with
   * `}`, lies contiguously inside the text and is no longer than it.
   */
  lemma SliceShape(t: string)
    requires HasBracePair(t)
    ensures var r := SliceOutermostBraces(t);
      && |r| >= 2 && r[0] == '{' && r[|r| - 1] == '}'
      && IsSubstring(r, t) && |r| <= |t|
  {
    SliceSpan(t);
    var i, j := IndexOf(t, '{'), LastIndexOf(t, '}');
    var r := t[i..j + 1];
    assert r[0] == t[i] && r[|r| - 1] == t[j];
    SliceIsSubstring(t, i, j + 1);
  }

  /** When the text has a `{` before a `}`, the guard holds and the slice runs from the first `{` to the last `}`. */
  lemma SliceSpan(t: string)
    requires HasBracePair(t)
    ensures 0 <= IndexOf(t, '{') < LastIndexOf(t, '}')
    ensures SliceOutermostBraces(t) == t[IndexOf(t, '{')..LastIndexOf(t, '}') + 1]
  {
    var a, b :| 0 <= a < b < |t| && t[a] == '{' && t[b] == '}';
    IndexOfIsFirst(t, '{', a);
    LastIndexOfIsLast(t, '}', b);
  }

  /** `SliceShape` for the extracted text and the trimmed answer. */
  lemma ExtractSliceShape(raw: string)
    requires HasBracePair(Trim(raw))
    ensures var r := ExtractJson(raw);
      && |r| >= 2 && r[0] == '{' && r[|r| - 1] == '}'
      && IsSubstring(r, Trim(raw)) && |r| <= |Trim(raw)|
  {
    SliceShape(Trim(raw));
  }

  /**
   * When the trimmed text has no `{`, no `}`, or no `}` after its first `{`,
   * the trimmed text is handed to the parser unchanged.
   */
  lemma ExtractPassThrough(raw: string)
    requires !HasBracePair(Trim(raw))
    ensures ExtractJson(raw) == Trim(raw)
  {
    SliceGuardIff(Trim(raw));
  }

  /** Slicing a slice changes nothing. */
  lemma SliceIdempotent(t: string)
    ensures SliceOutermostBraces(SliceOutermostBraces(t)) == SliceOutermostBraces(t)
  {
    var r := SliceOutermostBraces(t);
    if HasBracePair(t) {
      SliceShape(t);
      SliceIsOutermostSpan(r, 0, |r| - 1);
      assert r[0..|r|] == r;
    } else {
      SliceGuardIff(t);
    }
  }

  /** Extracting from an extracted text changes nothing. */
  lemma ExtractIdempotent(raw: string)
    ensures ExtractJson(ExtractJson(raw)) == ExtractJson(raw)
  {
    var t := Trim(raw);
    var r := SliceOutermostBraces(t);
    if r == t {
      TrimIdempotent(raw);
    } else {
      TrimFixesNoEdgeWhitespace(r);
    }
    SliceIdempotent(t);
  }

  /** A JSON object preceded by text without `{` and followed by text without `}` is cut out. */
  lemma SliceBetweenProse(before: string, json: string, after: string)
    requires |json| >= 2 && json[0] == '{' && json[|json| - 1] == '}'
    requires '{' !in before && '}' !in after
    ensures SliceOutermostBraces(before + json + after) == json
  {
    var t := before + json + after;
    var a, b := |before|, |before| + |json| - 1;
    forall k | 0 <= k < a ensures t[k] != '{' {
      assert t[k] == before[k];
    }
    forall k | b < k < |t| ensures t[k] != '}' {
      assert t[k] == after[k - b - 1];
    }
    SliceIsOutermostSpan(t, a, b);
    assert t[a..b + 1] == json;
  }

  /** A JSON object between prose on both sides is cut out of it. */
  lemma ExtractFromProse()
    ensures ExtractJson("noise {\"a\":1} trailing") == "{\"a\":1}"
  {
    SliceProse();
    TrimFixesNoEdgeWhitespace("noise {\"a\":1} trailing");
  }

  /** The slicing step of ExtractFromProse. */
  lemma SliceProse()
    ensures SliceOutermostBraces("noise {\"a\":1} trailing") == "{\"a\":1}"
  {
    var before, json, after := "noise ", "{\"a\":1}", " trailing";
    assert before + json + after == "noise {\"a\":1} trailing";
    assert '{' !in before;
    assert '}' !in after;
    SliceBetweenProse(before, json, after);
  }

  /** Surrounding whitespace is trimmed before the braces are looked for. */
  lemma ExtractEmptyObject()
    ensures ExtractJson("  {}\n") == "{}"
  {
    TrimInfixAt("  {}\n", 2, 2);
    SliceIsOutermostSpan("{}", 0, 1);
  }

  /** A `}` before the only `{` is no pair: the trimmed text passes through. */
  lemma ExtractReversedBraces()
    ensures ExtractJson("}{") == "}{"
  {
    TrimFixesNoEdgeWhitespace("}{");
    ExtractPassThrough("}{");
  }

  /** Text without braces passes through. */
  lemma ExtractNoBraces()
    ensures ExtractJson("not json at all") == "not json at all"
  {
    TrimFixesNoEdgeWhitespace("not json at all");
    ExtractPassThrough("not json at all");
  }
}
