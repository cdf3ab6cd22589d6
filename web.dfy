/** Values and string rules of the JavaScript runtime that the API handlers and
    the client components share: optional values, parsed JSON objects, the
    `trim`/`\s` notion of white space, `String.prototype.includes`, the case
    folding of a `/…/i` regular expression, and the typed values Bitrix24
    expects in its multi-valued lead fields. */
module Web {

  datatype Option<T> = None | Some(value: T)

  /** `s || fallback` for a string `s`: JavaScript treats only the empty
      string (and undefined, which the model also writes as "") as falsy. */
  function Or(s: string, fallback: string): string
  {
    if s != "" then s else fallback
  }

  // ---------------------------------------------------------------------
  // Parsed JSON objects

  /** An object as `JSON.parse` returns it: its own keys, each once, in
      insertion order (the order `Object.keys` reports for non-numeric keys). */
  predicate DistinctKeys(entries: seq<(string, string)>)
  {
    forall i, j :: 0 <= i < j < |entries| ==> entries[i].0 != entries[j].0
  }

  type JsonObject = entries: seq<(string, string)> | DistinctKeys(entries) witness []

  /** `o[k]`, where an absent key reads as undefined and so as "". */
  function Value(o: seq<(string, string)>, k: string): (v: string)
    ensures v != "" ==> exists i :: 0 <= i < |o| && o[i] == (k, v)
    ensures forall i :: 0 <= i < |o| && o[i].0 == k && DistinctKeys(o) ==> v == o[i].1
  {
    if o == [] then ""
    else if o[0].0 == k then o[0].1
    else
      var v := Value(o[1..], k);
      assert forall i :: 1 <= i < |o| ==> o[1..][i - 1] == o[i];
      v
  }

  /** `o[k]` as an optional value: None for a key the object does not have. */
  function Get(o: seq<(string, string)>, k: string): (r: Option<string>)
    ensures r.None? <==> forall i :: 0 <= i < |o| ==> o[i].0 != k
    ensures r.Some? ==> exists i :: 0 <= i < |o| && o[i] == (k, r.value)
  {
    if o == [] then None
    else if o[0].0 == k then Some(o[0].1)
    else
      var r := Get(o[1..], k);
      assert forall i :: 1 <= i < |o| ==> o[1..][i - 1] == o[i];
      r
  }

  // ---------------------------------------------------------------------
  // White space and trim

  /** The characters `String.prototype.trim` removes and `\s` matches: the
      ECMAScript WhiteSpace and LineTerminator code points (the Zs category
      written out as it stands in current Unicode). */
  predicate IsSpace(c: char)
  {
    || c == '\t' || c == '\n' || c == '\U{000B}' || c == '\U{000C}' || c == '\r'
    || c == ' ' || c == '\U{00A0}' || c == '\U{1680}'
    || ('\U{2000}' <= c <= '\U{200A}')
    || c == '\U{2028}' || c == '\U{2029}' || c == '\U{202F}' || c == '\U{205F}'
    || c == '\U{3000}' || c == '\U{FEFF}'
  }

  predicate AllSpace(s: string)
  {
    forall i :: 0 <= i < |s| ==> IsSpace(s[i])
  }

  /** Leading white space removed: the result is a suffix of `s`, what was cut
      is white space, and the result does not start with white space. */
  function TrimStart(s: string): (r: string)
    ensures |r| <= |s| && r == s[|s| - |r|..]
    ensures forall i :: 0 <= i < |s| - |r| ==> IsSpace(s[i])
    ensures r == [] || !IsSpace(r[0])
  {
    if s != [] && IsSpace(s[0]) then TrimStart(s[1..]) else s
  }

  /** Trailing white space removed: the mirror image of TrimStart. */
  function TrimEnd(s: string): (r: string)
    ensures |r| <= |s| && r == s[..|r|]
    ensures forall i :: |r| <= i < |s| ==> IsSpace(s[i])
    ensures r == [] || !IsSpace(r[|r| - 1])
  {
    if s != [] && IsSpace(s[|s| - 1]) then TrimEnd(s[..|s| - 1]) else s
  }

  /** `s.trim()`. */
  function Trim(s: string): (r: string)
    ensures r == [] || (!IsSpace(r[0]) && !IsSpace(r[|r| - 1]))
  {
    TrimEnd(TrimStart(s))
  }

  /** `!s.trim()` holds exactly for strings made only of white space. */
  lemma TrimEmptyIffAllSpace(s: string)
    ensures Trim(s) == "" <==> AllSpace(s)
  {
    var t := TrimStart(s);
    if t != [] {
      assert t[0] == s[|s| - |t|];
    }
  }

  // ---------------------------------------------------------------------
  // Substrings

  predicate StartsWith(s: string, prefix: string)
  {
    |prefix| <= |s| && s[..|prefix|] == prefix
  }

  /** `s.includes(t)`, written as a scan from the left. */
  predicate Contains(s: string, t: string)
    decreases |s|
  {
    StartsWith(s, t) || (s != [] && Contains(s[1..], t))
  }

  /** The scan finds `t` exactly when `t` occurs at some position of `s`. */
  lemma {:induction false} ContainsIffOccurs(s: string, t: string)
    ensures Contains(s, t) <==> exists i :: 0 <= i <= |s| - |t| && StartsWith(s[i..], t)
    decreases |s|
  {
    if StartsWith(s, t) {
      assert s[0..] == s;
    } else if s == [] {
    } else {
      ContainsIffOccurs(s[1..], t);
      if Contains(s[1..], t) {
        var i :| 0 <= i <= |s[1..]| - |t| && StartsWith(s[1..][i..], t);
        assert s[1..][i..] == s[i + 1..];
      } else {
        forall i | 0 <= i <= |s| - |t| ensures !StartsWith(s[i..], t) {
          if i > 0 { assert s[1..][i - 1..] == s[i..]; }
        }
      }
    }
  }

  /** A string contains every infix placed into it. */
  lemma {:induction false} ContainsInfix(a: string, t: string, b: string)
    ensures Contains(a + t + b, t)
    decreases |a|
  {
    if a == [] {
      assert (a + t + b)[..|t|] == t;
    } else {
      assert (a + t + b)[1..] == a[1..] + t + b;
      ContainsInfix(a[1..], t, b);
    }
  }

  // ---------------------------------------------------------------------
  // Case folding of a `/…/i` regular expression

  /** A case fold for the `/…/i` flag. Without the `u` flag JavaScript
      compares the upper-case forms of two characters; this fold lowers
      instead and puts the same characters together for the Basic Latin
      letters, the Cyrillic capitals U+0400–U+042F, and the Cyrillic
      Extended-C letters U+1C80–U+1C86 that upper-case onto В, Д, О, С, Т and
      Ъ. Every other character is its own fold. */
  function FoldChar(c: char): (d: char)
    ensures 'A' <= c <= 'Z' ==> 'a' <= d <= 'z'
    ensures !('A' <= c <= 'Z') && !('\U{0400}' <= c <= '\U{042F}') && !('\U{1C80}' <= c <= '\U{1C86}') ==> d == c
  {
    if 'A' <= c <= 'Z' || '\U{0410}' <= c <= '\U{042F}' then (c as int + 32) as char
    else if '\U{0400}' <= c <= '\U{040F}' then (c as int + 80) as char
    else if c == '\U{1C80}' then '\U{0432}'
    else if c == '\U{1C81}' then '\U{0434}'
    else if c == '\U{1C82}' then '\U{043E}'
    else if c == '\U{1C83}' then '\U{0441}'
    else if c == '\U{1C84}' || c == '\U{1C85}' then '\U{0442}'
    else if c == '\U{1C86}' then '\U{044A}'
    else c
  }

  /** `w` matches `text` at position `i` when the two are compared under
      the fold: one step of a `/…/i` search for `w`. */
  predicate MatchesAt(text: string, i: int, w: string)
  {
    0 <= i && i + |w| <= |text| && forall j :: 0 <= j < |w| ==> FoldChar(text[i + j]) == w[j]
  }

  /** The small Basic Latin and Cyrillic letters outside в, д, о, с, т and
      ъ. */
  predicate PlainLetter(c: char)
  {
    ('a' <= c <= 'z') || ('\U{0430}' <= c <= '\U{044F}' && c !in "вдостъ")
  }

  /** Such a letter and its capital, 32 code points below, are the only
      characters that fold onto it. */
  lemma FoldOnto(d: char, c: char, capital: char)
    requires PlainLetter(c) && capital as int == c as int - 32 && FoldChar(d) == c
    ensures d == c || d == capital
  {
  }

  /** The text holds such a letter neither in small nor in capital form. */
  predicate Lacks(text: string, c: char, capital: char)
  {
    PlainLetter(c) && capital as int == c as int - 32
    && forall i :: 0 <= i < |text| ==> text[i] != c && text[i] != capital
  }

  /** A word holding such a letter matches nowhere in a text that lacks it. */
  lemma NoMatch(text: string, w: string, c: char, capital: char)
    requires Lacks(text, c, capital) && c in w
    ensures forall i :: !MatchesAt(text, i, w)
  {
    var j :| 0 <= j < |w| && w[j] == c;
    forall i | MatchesAt(text, i, w) ensures false {
      FoldOnto(text[i + j], c, capital);
    }
  }

  // ---------------------------------------------------------------------
  // Bitrix24 multi-field values

  /** `{ VALUE, VALUE_TYPE }`, the entry of a Bitrix24 PHONE or EMAIL list. */
  datatype TypedValue = TypedValue(value: string, valueType: string)

  function Work(v: string): TypedValue
  {
    TypedValue(v, "WORK")
  }
}
