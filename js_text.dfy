/**
 * The few JavaScript string operations the gaze pages rely on:
 * `trim`, `split(" ")`, `join(" ")`, and the truthiness test behind `a || b`.
 */
module JsText {
  import opened Wrappers

  /** ECMAScript WhiteSpace and LineTerminator code points: what `String.prototype.trim` removes. */
  predicate IsWhitespace(c: char) {
    || c == '\t' || c == '\n' || c == '\U{000B}' || c == '\U{000C}' || c == '\r' || c == ' '
    || c == '\U{00A0}' || c == '\U{1680}' || ('\U{2000}' <= c <= '\U{200A}')
    || c == '\U{2028}' || c == '\U{2029}' || c == '\U{202F}' || c == '\U{205F}'
    || c == '\U{3000}' || c == '\U{FEFF}'
  }

  /** Neither end of `s` is whitespace. */
  predicate IsTrimmed(s: string) {
    s == [] || (!IsWhitespace(s[0]) && !IsWhitespace(s[|s| - 1]))
  }

  predicate AllWhitespace(s: string) {
    forall i :: 0 <= i < |s| ==> IsWhitespace(s[i])
  }

  function TrimStart(s: string): (r: string)
    ensures |r| <= |s| && r == s[|s| - |r|..]
    ensures r == [] || !IsWhitespace(r[0])
    ensures AllWhitespace(s[..|s| - |r|])
  {
    if s != [] && IsWhitespace(s[0]) then TrimStart(s[1..]) else s
  }

  function TrimEnd(s: string): (r: string)
    ensures |r| <= |s| && r == s[..|r|]
    ensures r == [] || !IsWhitespace(r[|r| - 1])
    ensures AllWhitespace(s[|r|..])
  {
    if s != [] && IsWhitespace(s[|s| - 1]) then TrimEnd(s[..|s| - 1]) else s
  }

  /** `s.trim()`: neither end of the result is whitespace, and trimmed text is kept as it is. */
  function Trim(s: string): (r: string)
    ensures IsTrimmed(r)
    ensures IsTrimmed(s) ==> r == s
  {
    var t := TrimStart(s);
    var r := TrimEnd(t);
    assert r != [] ==> r[0] == t[0];
    r
  }

  /** `s` is `mid` with only whitespace before it (`pre` characters) and after it. */
  predicate WhitespaceAround(s: string, pre: nat, mid: string) {
    && pre + |mid| <= |s| && s[pre..pre + |mid|] == mid
    && AllWhitespace(s[..pre]) && AllWhitespace(s[pre + |mid|..])
  }

  /** What `trim` removes is whitespace at either end: `s` is `pre + Trim(s) + post`. */
  lemma TrimRemovesOnlyEnds(s: string)
    ensures exists pre: nat :: WhitespaceAround(s, pre, Trim(s))
  {
    var t := TrimStart(s);
    var r := TrimEnd(t);
    assert r == Trim(s);
    var pre := |s| - |t|;
    assert t == s[pre..];
    assert s[pre..pre + |r|] == t[..|r|];
    assert s[pre + |r|..] == t[|r|..];
    assert WhitespaceAround(s, pre, r);
  }

  /** `s.split(sep)` for a one-character separator: `"".split(" ")` is `[""]`. */
  function Split(s: string, sep: char): (parts: seq<string>)
    ensures |parts| >= 1
    ensures forall i :: 0 <= i < |parts| ==> sep !in parts[i]
  {
    if s == [] then [""]
    else if s[0] == sep then [""] + Split(s[1..], sep)
    else
      var rest := Split(s[1..], sep);
      [[s[0]] + rest[0]] + rest[1..]
  }

  /** `parts.join(sep)`. */
  function Join(parts: seq<string>, sep: char): string {
    if parts == [] then ""
    else if |parts| == 1 then parts[0]
    else parts[0] + [sep] + Join(parts[1..], sep)
  }

  /** Joining what was split gives the original text back. */
  lemma {:induction false} JoinSplit(s: string, sep: char)
    ensures Join(Split(s, sep), sep) == s
  {
    if s == [] {
    } else if s[0] == sep {
      JoinSplit(s[1..], sep);
      assert Split(s, sep) == [""] + Split(s[1..], sep);
      assert s == [sep] + s[1..];
    } else {
      var rest := Split(s[1..], sep);
      JoinSplit(s[1..], sep);
      assert Split(s, sep) == [[s[0]] + rest[0]] + rest[1..];
      if |rest| == 1 {
        assert Join(rest, sep) == rest[0];
      } else {
        assert Join(rest, sep) == rest[0] + [sep] + Join(rest[1..], sep);
        assert ([[s[0]] + rest[0]] + rest[1..])[1..] == rest[1..];
      }
      assert s == [s[0]] + s[1..];
    }
  }

  /** Splitting what was joined gives the parts back, when no part holds the separator. */
  lemma {:induction false} SplitJoin(parts: seq<string>, sep: char)
    requires |parts| >= 1
    requires forall i :: 0 <= i < |parts| ==> sep !in parts[i]
    ensures Split(Join(parts, sep), sep) == parts
  {
    if |parts| == 1 {
      SplitNoSeparator(parts[0], sep);
    } else {
      SplitJoin(parts[1..], sep);
      SplitPrefix(parts[0], Join(parts[1..], sep), sep);
      assert Join(parts, sep) == parts[0] + [sep] + Join(parts[1..], sep);
      assert parts == [parts[0]] + parts[1..];
    }
  }

  lemma {:induction false} SplitNoSeparator(s: string, sep: char)
    requires sep !in s
    ensures Split(s, sep) == [s]
  {
    if s != [] {
      SplitNoSeparator(s[1..], sep);
      assert s == [s[0]] + s[1..];
    }
  }

  /** Splitting `p + [sep] + q`, where `p` has no separator, puts `p` in front of the parts of `q`. */
  lemma {:induction false} SplitPrefix(p: string, q: string, sep: char)
    requires sep !in p
    ensures Split(p + [sep] + q, sep) == [p] + Split(q, sep)
  {
    if p == [] {
      assert p + [sep] + q == [sep] + q;
      assert ([sep] + q)[1..] == q;
    } else {
      SplitPrefix(p[1..], q, sep);
      var s := p + [sep] + q;
      assert s[0] == p[0] && s[1..] == p[1..] + [sep] + q;
      assert [p[0]] + p[1..] == p;
    }
  }

  /** Joining with one more part appends the separator and that part. */
  lemma {:induction false} JoinSnoc(parts: seq<string>, last: string, sep: char)
    requires |parts| >= 1
    ensures Join(parts + [last], sep) == Join(parts, sep) + [sep] + last
  {
    if |parts| == 1 {
      assert Join(parts + [last], sep) == parts[0] + [sep] + Join([last], sep);
    } else {
      JoinSnoc(parts[1..], last, sep);
      assert (parts + [last])[1..] == parts[1..] + [last];
    }
  }

  /** JavaScript truthiness of an optional string: null, undefined and "" are falsy. */
  predicate Truthy(v: Option<string>) {
    v.Some? && v.value != ""
  }

  /** `v || fallback`. */
  function OrDefault(v: Option<string>, fallback: string): (r: string)
    ensures Truthy(v) ==> r == v.value
    ensures !Truthy(v) ==> r == fallback
  {
    if Truthy(v) then v.value else fallback
  }

  /** `a[i]`: undefined outside the array. */
  function ElementAt<T>(a: seq<Option<T>>, i: int): (r: Option<T>)
    ensures (0 <= i < |a|) ==> r == a[i]
    ensures !(0 <= i < |a|) ==> r == None
  {
    if 0 <= i < |a| then a[i] else None
  }

  /**
   * The UTF-16 code units of one character: itself below U+10000, otherwise its high
   * and low surrogates.
   */
  function Units(c: char): (units: seq<int>)
    ensures 1 <= |units| <= 2
    ensures |units| == 1 <==> (c as int) < 0x1_0000
    ensures |units| == 1 ==> units[0] == c as int
    ensures |units| == 2 ==> 0xD800 <= units[0] < 0xDC00 && 0xDC00 <= units[1] < 0xE000
  {
    var v := c as int;
    if v < 0x1_0000 then [v] else [0xD800 + (v - 0x1_0000) / 0x400, 0xDC00 + (v - 0x1_0000) % 0x400]
  }

  /**
   * The UTF-16 code units of `s`: JavaScript's `length` counts them, and `charAt` and
   * `charCodeAt` index them.
   */
  function CodeUnits(s: string): (units: seq<int>)
    ensures |s| <= |units|
    ensures forall k :: 0 <= k < |units| ==> 0 <= units[k] < 0x1_0000
  {
    if s == [] then [] else CodeUnits(s[..|s| - 1]) + Units(s[|s| - 1])
  }

  /** The code units of a concatenation are those of its parts, one after the other. */
  lemma {:induction false} CodeUnitsAppend(a: string, b: string)
    ensures CodeUnits(a + b) == CodeUnits(a) + CodeUnits(b)
    decreases |b|
  {
    if b != [] {
      var init, last := b[..|b| - 1], b[|b| - 1];
      CodeUnitsAppend(a, init);
      assert (a + b)[..|a + b| - 1] == a + init;
      assert (a + b)[|a + b| - 1] == last;
      calc {
        CodeUnits(a + b);
        CodeUnits(a + init) + Units(last);
        CodeUnits(a) + CodeUnits(init) + Units(last);
        CodeUnits(a) + (CodeUnits(init) + Units(last));
      }
    } else {
      assert a + b == a;
    }
  }

  /** One more character adds its code units at the end. */
  lemma CodeUnitsSnoc(s: string, c: char)
    ensures CodeUnits(s + [c]) == CodeUnits(s) + Units(c)
  {
    assert (s + [c])[..|s|] == s;
  }

  /** A three-character text has its characters' code units, in order. */
  lemma ThreeCodeUnits(a: char, b: char, c: char)
    ensures CodeUnits([a, b, c]) == Units(a) + Units(b) + Units(c)
  {
    var ab := CodeUnits([a]) + Units(b);
    calc {
      CodeUnits([a, b, c]);
      { CodeUnitsSnoc([a, b], c); assert [a, b] + [c] == [a, b, c]; }
      CodeUnits([a, b]) + Units(c);
      { CodeUnitsSnoc([a], b); assert [a] + [b] == [a, b]; }
      ab + Units(c);
      { CodeUnitsSnoc([], a); assert [] + [a] == [a]; }
      Units(a) + Units(b) + Units(c);
    }
  }
}
