/** Trimming a generated reply down to its JSON object before parsing: keep
    the text from the first `{` through the last `}` when a `}` follows the
    first `{`, and keep the whole text otherwise. */
module JsonSpan {

  /** Python's `str.find` for one character: the first index of `c`, or -1. */
  function Find(s: string, c: char): (r: int)
    ensures -1 <= r < |s|
    ensures r == -1 ==> forall k :: 0 <= k < |s| ==> s[k] != c
    ensures r >= 0 ==> s[r] == c && forall k :: 0 <= k < r ==> s[k] != c
  {
    if s == [] then -1
    else if s[0] == c then 0
    else
      var k := Find(s[1..], c);
      if k < 0 then -1 else k + 1
  }

  /** Python's `str.rfind` for one character: the last index of `c`, or -1. */
  function RFind(s: string, c: char): (r: int)
    ensures -1 <= r < |s|
    ensures r == -1 ==> forall k :: 0 <= k < |s| ==> s[k] != c
    ensures r >= 0 ==> s[r] == c && forall k :: r < k < |s| ==> s[k] != c
  {
    if s == [] then -1
    else if s[|s| - 1] == c then |s| - 1
    else RFind(s[..|s| - 1], c)
  }

  /** Some `}` comes after some `{`: exactly when the reply is trimmed. */
  predicate HasSpan(text: string) {
    exists i, k :: 0 <= i < k < |text| && text[i] == '{' && text[k] == '}'
  }

  /** `r` occurs in `text` as a contiguous piece. */
  predicate IsInfix(r: string, text: string) {
    exists a, b :: 0 <= a <= b <= |text| && r == text[a..b]
  }

  /** `text[a..b + 1]` runs from the first `{` of `text` to its last `}`. */
  predicate OuterBraces(text: string, a: int, b: int) {
    && 0 <= a < b < |text|
    && text[a] == '{' && (forall k :: 0 <= k < a ==> text[k] != '{')
    && text[b] == '}' && (forall k :: b < k < |text| ==> text[k] != '}')
  }

  /** The trimming step of `generate_food_items`. */
  function ExtractJson(text: string): (r: string)
    ensures IsInfix(r, text) && |r| <= |text|
    ensures !HasSpan(text) ==> r == text
    ensures HasSpan(text) ==> exists a, b :: OuterBraces(text, a, b) && r == text[a..b + 1]
    ensures HasSpan(text) ==> |r| >= 2 && r[0] == '{' && r[|r| - 1] == '}'
  {
    var start := Find(text, '{');
    var end := RFind(text, '}') + 1;
    if start >= 0 && end > start then
      assert OuterBraces(text, start, end - 1);
      assert IsInfix(text[start..end], text);
      text[start..end]
    else
      assert IsInfix(text[0..|text|], text);
      text
  }

  /** A text that already starts with `{` and ends with `}` is kept whole. */
  lemma ExtractKeepsBraced(r: string)
    requires |r| >= 2 && r[0] == '{' && r[|r| - 1] == '}'
    ensures ExtractJson(r) == r
  {
    assert HasSpan(r);
    var e := ExtractJson(r);
    var a, b :| OuterBraces(r, a, b) && e == r[a..b + 1];
    assert a == 0 && b == |r| - 1;
    assert r[0..|r|] == r;
  }

  /** Trimming twice gives the same text as trimming once: a trimmed reply
      already starts with its first `{` and ends with its last `}`. */
  lemma ExtractIdempotent(text: string)
    ensures ExtractJson(ExtractJson(text)) == ExtractJson(text)
  {
    var r := ExtractJson(text);
    if HasSpan(text) {
      ExtractKeepsBraced(r);
    } else {
      assert r == text;
    }
  }
}
