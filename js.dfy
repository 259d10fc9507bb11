/**
  The pieces of JavaScript semantics the route handlers rely on: truthiness of an
  optional string field, parsed JSON values, and `String.prototype.trim`.
*/
module Js {
  import opened Wrappers

  /** `!x` is false for a present, non-empty string; `undefined` and `""` are falsy. */
  predicate Truthy(o: Option<string>) {
    o.Some? && o.value != ""
  }

  /** `o || ''` */
  function OrEmpty(o: Option<string>): (r: string)
    ensures o.Some? ==> r == o.value
    ensures o.None? ==> r == ""
  {
    match o
    case Some(s) => s
    case None => ""
  }

  /** A parsed JSON value. Numbers are whole numbers in this model. */
  datatype Json =
    | JString(str: string)
    | JNumber(num: int)
    | JBool(flag: bool)
    | JNull
    | JArray(items: seq<Json>)
    | JObject(fields: map<string, Json>)

  /** The characters `String.prototype.trim` removes: WhiteSpace and LineTerminator of ECMA-262. */
  predicate IsJsWhitespace(c: char) {
    || c == '\t' || c == '\n' || c == '\U{B}' || c == '\U{C}' || c == '\r' || c == ' '
    || c == '\U{A0}' || c == '\U{1680}' || ('\U{2000}' <= c <= '\U{200A}')
    || c == '\U{2028}' || c == '\U{2029}' || c == '\U{202F}' || c == '\U{205F}'
    || c == '\U{3000}' || c == '\U{FEFF}'
  }

  predicate AllWhitespace(s: string) {
    forall i :: 0 <= i < |s| ==> IsJsWhitespace(s[i])
  }

  /** Neither the first nor the last character is whitespace. */
  predicate NoEdgeWhitespace(s: string) {
    s == [] || (!IsJsWhitespace(s[0]) && !IsJsWhitespace(s[|s| - 1]))
  }

  /** Drops the leading whitespace: the result is the suffix of `s` that starts at its first other character. */
  function TrimStart(s: string): (r: string)
    ensures |r| <= |s| && r == s[|s| - |r|..]
    ensures r == [] || !IsJsWhitespace(r[0])
  {
    if s != [] && IsJsWhitespace(s[0]) then TrimStart(s[1..]) else s
  }

  /** Only whitespace is dropped at the start. */
  lemma {:induction false} TrimStartDropsWhitespace(s: string)
    ensures AllWhitespace(s[..|s| - |TrimStart(s)|])
  {
    if s != [] && IsJsWhitespace(s[0]) {
      TrimStartDropsWhitespace(s[1..]);
      var n := |s| - |TrimStart(s)|;
      assert s[..n] == [s[0]] + s[1..][..n - 1];
    }
  }

  /** Drops the trailing whitespace: the result is the prefix of `s` that ends at its last other character. */
  function TrimEnd(s: string): (r: string)
    ensures |r| <= |s| && r == s[..|r|]
    ensures r == [] || !IsJsWhitespace(r[|r| - 1])
  {
    if s != [] && IsJsWhitespace(s[|s| - 1]) then TrimEnd(s[..|s| - 1]) else s
  }

  /** Only whitespace is dropped at the end. */
  lemma {:induction false} TrimEndDropsWhitespace(s: string)
    ensures AllWhitespace(s[|TrimEnd(s)|..])
  {
    if s != [] && IsJsWhitespace(s[|s| - 1]) {
      TrimEndDropsWhitespace(s[..|s| - 1]);
      var n := |TrimEnd(s)|;
      assert s[n..] == s[..|s| - 1][n..] + [s[|s| - 1]];
    }
  }

  /** `s.trim()`: whitespace stripped from both ends. */
  function Trim(s: string): (r: string)
    ensures NoEdgeWhitespace(r)
  {
    var t := TrimStart(s);
    var r := TrimEnd(t);
    assert r == [] || r[0] == t[0];
    r
  }

  lemma {:induction false} TrimStartOfWhitespacePrefix(a: string, t: string)
    requires AllWhitespace(a)
    requires t == [] || !IsJsWhitespace(t[0])
    ensures TrimStart(a + t) == t
  {
    if a != [] {
      assert (a + t)[1..] == a[1..] + t;
      TrimStartOfWhitespacePrefix(a[1..], t);
    } else {
      assert a + t == t;
    }
  }

  lemma {:induction false} TrimEndOfWhitespaceSuffix(t: string, b: string)
    requires AllWhitespace(b)
    requires t == [] || !IsJsWhitespace(t[|t| - 1])
    ensures TrimEnd(t + b) == t
  {
    if b != [] {
      assert (t + b)[..|t + b| - 1] == t + b[..|b| - 1];
      TrimEndOfWhitespaceSuffix(t, b[..|b| - 1]);
    } else {
      assert t + b == t;
    }
  }

  /**
    Trim is characterised by its result: whenever `s` is a whitespace run, then `r`
    without whitespace at either edge, then another whitespace run, `s.trim()` is `r`.
  */
  lemma TrimOfPadded(a: string, r: string, b: string)
    requires AllWhitespace(a) && AllWhitespace(b) && NoEdgeWhitespace(r)
    ensures Trim(a + r + b) == r
  {
    if r == [] {
      assert a + r + b == a + b + [];
      assert AllWhitespace(a + b);
      TrimStartOfWhitespacePrefix(a + b, []);
    } else {
      assert a + r + b == a + (r + b);
      TrimStartOfWhitespacePrefix(a, r + b);
      TrimEndOfWhitespaceSuffix(r, b);
    }
  }

  /** A string without whitespace at its edges is its own trim. */
  lemma TrimOfUnpadded(s: string)
    requires NoEdgeWhitespace(s)
    ensures Trim(s) == s
  {
    var e: string := [];
    assert e + s + e == s;
    TrimOfPadded(e, s, e);
  }

  /** The start trim of `s` and one more character: the character joins a non-empty result, or is cut too if it is whitespace. */
  function TrimStartAppended(s: string, c: char): string {
    if TrimStart(s) != [] then TrimStart(s) + [c] else if IsJsWhitespace(c) then [] else [c]
  }

  /** One step of `TrimStart`. */
  lemma TrimStartStep(x: string)
    requires x != []
    ensures TrimStart(x) == if IsJsWhitespace(x[0]) then TrimStart(x[1..]) else x
  {
  }

  lemma TrimStartOfOne(c: char)
    ensures TrimStart([c]) == if IsJsWhitespace(c) then [] else [c]
  {
    TrimStartStep([c]);
    assert |[c][1..]| == 0;
  }

  lemma {:induction false} TrimStartAppend(s: string, c: char)
    ensures TrimStart(s + [c]) == TrimStartAppended(s, c)
  {
    if s == [] {
      assert s + [c] == [c];
      TrimStartOfOne(c);
    } else {
      var sc := s + [c];
      assert sc[0] == s[0] && sc[1..] == s[1..] + [c];
      TrimStartStep(sc);
      TrimStartStep(s);
      if IsJsWhitespace(s[0]) {
        TrimStartAppend(s[1..], c);
      }
    }
  }

  /** Appending a space does not change the trim. */
  lemma TrimIgnoresTrailingSpace(s: string)
    ensures Trim(s + " ") == Trim(s)
  {
    var t := TrimStart(s);
    TrimStartAppend(s, ' ');
    if t != [] {
      var u := t + " ";
      assert TrimEnd(u) == TrimEnd(u[..|u| - 1]);
      assert u[..|u| - 1] == t;
    }
  }

  /** Prepending whitespace does not change the start trim. */
  lemma {:induction false} TrimStartOfWhitespacePrepended(w: string, s: string)
    requires AllWhitespace(w)
    ensures TrimStart(w + s) == TrimStart(s)
  {
    if w == [] {
      assert w + s == s;
    } else {
      assert (w + s)[1..] == w[1..] + s;
      TrimStartOfWhitespacePrepended(w[1..], s);
    }
  }

  /** Prepending whitespace does not change the trim. */
  lemma TrimIgnoresLeadingWhitespace(w: string, s: string)
    requires AllWhitespace(w)
    ensures Trim(w + s) == Trim(s)
  {
    TrimStartOfWhitespacePrepended(w, s);
  }

  /** Trimming twice is trimming once. */
  lemma TrimIdempotent(s: string)
    ensures Trim(Trim(s)) == Trim(s)
  {
    TrimOfPadded([], Trim(s), []);
    assert [] + Trim(s) + [] == Trim(s);
  }
}
