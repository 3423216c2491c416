/**
 * The string operations the server relies on: `String.prototype.trim`,
 * `Array.prototype.join`, `String.prototype.startsWith` and the ASCII part of
 * `String.prototype.toLowerCase`.
 */
module Text {

  /**
   * The characters `trim` removes: ECMAScript WhiteSpace (tab, vertical tab,
   * form feed, space, no-break space, byte order mark and the Zs category) and
   * LineTerminator (line feed, carriage return, line and paragraph separator).
   */
  predicate IsWs(c: char)
  {
    || c == '\t' || c == '\n' || c == '\U{000B}' || c == '\U{000C}' || c == '\r'
    || c == ' ' || c == '\U{00A0}' || c == '\U{1680}'
    || ('\U{2000}' <= c <= '\U{200A}')
    || c == '\U{2028}' || c == '\U{2029}' || c == '\U{202F}' || c == '\U{205F}'
    || c == '\U{3000}' || c == '\U{FEFF}'
  }

  /** Every character of `s` is whitespace. */
  predicate AllWs(s: string)
  {
    forall i :: 0 <= i < |s| ==> IsWs(s[i])
  }

  /** `s` neither starts nor ends with whitespace. */
  predicate NoEdgeWs(s: string)
  {
    s == "" || (!IsWs(s[0]) && !IsWs(s[|s| - 1]))
  }

  /** `s` with its leading whitespace removed. */
  function TrimStart(s: string): string
    decreases |s|
  {
    if |s| > 0 && IsWs(s[0]) then TrimStart(s[1..]) else s
  }

  /** `s` with its trailing whitespace removed. */
  function TrimEnd(s: string): string
    decreases |s|
  {
    if |s| > 0 && IsWs(s[|s| - 1]) then TrimEnd(s[..|s| - 1]) else s
  }

  /** `TrimStart` drops exactly the longest whitespace prefix: what it drops is whitespace and what it keeps does not start with whitespace. */
  lemma {:induction false} TrimStartShape(s: string)
    ensures |TrimStart(s)| <= |s| && TrimStart(s) == s[|s| - |TrimStart(s)|..]
    ensures AllWs(s[..|s| - |TrimStart(s)|])
    ensures TrimStart(s) == "" || !IsWs(TrimStart(s)[0])
    decreases |s|
  {
    if |s| > 0 && IsWs(s[0]) {
      TrimStartShape(s[1..]);
      var k := |s| - |TrimStart(s)|;
      assert s[..k] == [s[0]] + s[1..][..k - 1];
    }
  }

  /** `TrimEnd` drops exactly the longest whitespace suffix: what it drops is whitespace and what it keeps does not end with whitespace. */
  lemma {:induction false} TrimEndShape(s: string)
    ensures |TrimEnd(s)| <= |s| && TrimEnd(s) == s[..|TrimEnd(s)|]
    ensures AllWs(s[|TrimEnd(s)|..])
    ensures TrimEnd(s) == "" || !IsWs(TrimEnd(s)[|TrimEnd(s)| - 1])
    decreases |s|
  {
    if |s| > 0 && IsWs(s[|s| - 1]) {
      TrimEndShape(s[..|s| - 1]);
      var k := |TrimEnd(s)|;
      assert s[k..] == s[..|s| - 1][k..] + [s[|s| - 1]];
    }
  }

  /** `s.trim()`. */
  function Trim(s: string): string
  {
    TrimEnd(TrimStart(s))
  }

  /** `TrimStart` cuts at the first non-whitespace character. */
  lemma {:induction false} TrimStartAt(s: string, a: nat)
    requires a <= |s| && AllWs(s[..a]) && (a == |s| || !IsWs(s[a]))
    ensures TrimStart(s) == s[a..]
    decreases a
  {
    if a > 0 {
      assert s[..a][0] == s[0];
      assert s[1..][..a - 1] == s[1..a];
      TrimStartAt(s[1..], a - 1);
      assert s[1..][a - 1..] == s[a..];
    }
  }

  /** `TrimEnd` cuts after the last non-whitespace character. */
  lemma {:induction false} TrimEndAt(s: string, b: nat)
    requires b <= |s| && AllWs(s[b..]) && (b == 0 || !IsWs(s[b - 1]))
    ensures TrimEnd(s) == s[..b]
    decreases |s| - b
  {
    if b < |s| {
      var s' := s[..|s| - 1];
      assert s[b..][|s| - 1 - b] == s[|s| - 1];
      assert s'[b..] == s[b..|s| - 1];
      TrimEndAt(s', b);
      assert s'[..b] == s[..b];
    }
  }

  /**
   * `Trim(s)` is the unique middle of `s`: whenever `s` splits as a whitespace
   * prefix, a part with no whitespace at either end and a whitespace suffix,
   * the trim is that part.
   */
  lemma TrimIsMiddle(s: string, a: nat, b: nat)
    requires a <= b <= |s|
    requires AllWs(s[..a]) && AllWs(s[b..]) && NoEdgeWs(s[a..b])
    ensures Trim(s) == s[a..b]
  {
    if a == b {
      assert AllWs(s) by {
        forall i | 0 <= i < |s| ensures IsWs(s[i]) {
          if i < a { assert s[..a][i] == s[i]; } else { assert s[b..][i - b] == s[i]; }
        }
      }
      assert s[..|s|] == s;
      TrimStartAt(s, |s|);
    } else {
      assert s[a] == s[a..b][0];
      TrimStartAt(s, a);
      var t := s[a..];
      assert t[b - a..] == s[b..];
      assert t[b - a - 1] == s[a..b][b - a - 1];
      TrimEndAt(t, b - a);
      assert t[..b - a] == s[a..b];
    }
  }

  /** The result of `trim` has no whitespace at either end, and it is a slice of `s` cut at whitespace. */
  lemma TrimShape(s: string)
    ensures NoEdgeWs(Trim(s))
    ensures exists a: nat, b: nat :: a <= b <= |s| && Trim(s) == s[a..b]
                                   && AllWs(s[..a]) && AllWs(s[b..])
  {
    var t := TrimStart(s);
    var u := TrimEnd(t);
    TrimStartShape(s);
    TrimEndShape(t);
    var a := |s| - |t|;
    var b := a + |u|;
    assert u == s[a..b];
    assert AllWs(s[b..]) by {
      assert s[b..] == t[|u|..];
    }
    if u != "" {
      assert u[0] == t[0];
    }
  }

  /** Trimming is idempotent: a trimmed string is its own trim. */
  lemma TrimIdempotent(s: string)
    ensures Trim(Trim(s)) == Trim(s)
  {
    var t := Trim(s);
    TrimShape(s);
    assert t[..0] == "" && t[|t|..] == "" && t[0..|t|] == t;
    TrimIsMiddle(t, 0, |t|);
  }

  /** `s.trim()` is empty (falsy) exactly when `s` consists of whitespace only. */
  lemma TrimEmptyIff(s: string)
    ensures Trim(s) == "" <==> AllWs(s)
  {
    if AllWs(s) {
      assert s[..0] == "" && s[0..0] == "";
      assert s[0..] == s;
      TrimIsMiddle(s, 0, 0);
    } else {
      var t := TrimStart(s);
      TrimStartShape(s);
      TrimEndShape(t);
      var i :| 0 <= i < |s| && !IsWs(s[i]);
      var a := |s| - |t|;
      assert t[i - a] == s[i];
    }
  }

  /** `parts.join(sep)` on an array of strings. */
  function Join(parts: seq<string>, sep: string): string
  {
    if |parts| == 0 then ""
    else if |parts| == 1 then parts[0]
    else parts[0] + sep + Join(parts[1..], sep)
  }

  /**
   * Join agrees with the left-to-right accumulation that ECMAScript specifies
   * for `Array.prototype.join`: appending one more part appends the separator
   * and the part.
   */
  lemma {:induction false} JoinSnoc(parts: seq<string>, x: string, sep: string)
    requires |parts| > 0
    ensures Join(parts + [x], sep) == Join(parts, sep) + sep + x
  {
    if |parts| == 1 {
      assert (parts + [x])[1..] == [x];
    } else {
      assert (parts + [x])[1..] == parts[1..] + [x];
      JoinSnoc(parts[1..], x, sep);
    }
  }

  /** `s.startsWith(prefix)`. */
  predicate StartsWith(s: string, prefix: string)
  {
    |prefix| <= |s| && s[..|prefix|] == prefix
  }

  /** The ASCII case mapping of `toLowerCase`. */
  function LowerChar(c: char): char
  {
    if 'A' <= c <= 'Z' then (c as int - 'A' as int + 'a' as int) as char else c
  }

  /** `s.toLowerCase()` restricted to ASCII letters: every character is lowered in place. */
  function ToLower(s: string): (r: string)
    ensures |r| == |s|
    ensures forall i :: 0 <= i < |s| ==> r[i] == LowerChar(s[i])
  {
    if s == "" then "" else [LowerChar(s[0])] + ToLower(s[1..])
  }

  /** `a` and `b` are equal once both are lowered. */
  predicate EqualsIgnoringCase(a: string, b: string)
  {
    |a| == |b| && forall i :: 0 <= i < |a| ==> LowerChar(a[i]) == LowerChar(b[i])
  }
}
