/** String helpers that stand for the Python `str` methods the pipeline relies on. */
module Text {

  /** Python's `str.isspace` for one character: the characters `split()` and `strip()` treat as blanks. */
  predicate IsSpace(c: char)
  {
    || '\t' <= c <= '\r'
    || '\U{1C}' <= c <= ' '
    || c == '\U{85}' || c == '\U{A0}' || c == '\U{1680}'
    || '\U{2000}' <= c <= '\U{200A}'
    || c == '\U{2028}' || c == '\U{2029}' || c == '\U{202F}' || c == '\U{205F}' || c == '\U{3000}'
  }

  predicate AllSpace(s: string)
  {
    forall i :: 0 <= i < |s| ==> IsSpace(s[i])
  }

  /** `s.lstrip()` */
  function LStrip(s: string): (r: string)
    ensures |r| <= |s| && r == s[|s| - |r|..]
    ensures r == [] || !IsSpace(r[0])
    ensures AllSpace(s[..|s| - |r|])
  {
    if s != [] && IsSpace(s[0]) then
      var r := LStrip(s[1..]);
      assert s[1..][..|s| - 1 - |r|] == s[1..|s| - |r|];
      r
    else s
  }

  /** `s.rstrip()` */
  function RStrip(s: string): (r: string)
    ensures |r| <= |s| && r == s[..|r|]
    ensures r == [] || !IsSpace(r[|r| - 1])
    ensures AllSpace(s[|r|..])
  {
    if s != [] && IsSpace(s[|s| - 1]) then
      var r := RStrip(s[..|s| - 1]);
      assert s[|r|..] == s[..|s| - 1][|r|..] + [s[|s| - 1]];
      r
    else s
  }

  /** `s.strip()` */
  function Strip(s: string): string
  {
    RStrip(LStrip(s))
  }

  /** Stripping keeps a string that neither starts nor ends with a blank. */
  lemma StripUnpadded(s: string)
    requires s != [] && !IsSpace(s[0]) && !IsSpace(s[|s| - 1])
    ensures Strip(s) == s
  {
  }

  /** A string with a non-blank character keeps it through `strip()`. */
  lemma StripKeepsNonBlank(s: string, i: nat)
    requires i < |s| && !IsSpace(s[i])
    ensures Strip(s) != []
  {
    var l := LStrip(s);
    var m := |s| - |l|;
    assert i >= m;
    var k := i - m;
    assert l[k] == s[i];
    var r := RStrip(l);
    assert k < |r|;
  }

  /** Length of the run of non-blank characters at the front of `s`. */
  function WordLen(s: string): (n: nat)
    ensures n <= |s|
    ensures forall i :: 0 <= i < n ==> !IsSpace(s[i])
    ensures n < |s| ==> IsSpace(s[n])
  {
    if s == [] || IsSpace(s[0]) then 0 else 1 + WordLen(s[1..])
  }

  /** Python's `' '.join(s.split())`: the words of `s`, separated by single spaces. */
  function Collapse(s: string): string
    decreases |s|
  {
    if s == [] then []
    else if IsSpace(s[0]) then Collapse(s[1..])
    else
      var n := WordLen(s);
      var rest := Collapse(s[n..]);
      s[..n] + (if rest == [] then [] else [' '] + rest)
  }

  /** The shape `' '.join(words)` always has: words of non-blank characters separated by single spaces. */
  predicate Normal(s: string)
    decreases |s|
  {
    s == [] ||
    var n := WordLen(s);
    0 < n && (n == |s| || (s[n] == ' ' && n + 1 < |s| && Normal(s[n + 1..])))
  }

  lemma {:induction false} WordLenAll(w: string)
    requires forall i :: 0 <= i < |w| ==> !IsSpace(w[i])
    ensures WordLen(w) == |w|
    decreases |w|
  {
    if w != [] {
      WordLenAll(w[1..]);
    }
  }

  lemma {:induction false} WordLenJoin(w: string, t: string)
    requires forall i :: 0 <= i < |w| ==> !IsSpace(w[i])
    requires t != [] && IsSpace(t[0])
    ensures WordLen(w + t) == |w|
    decreases |w|
  {
    if w == [] {
      assert w + t == t;
    } else {
      assert (w + t)[0] == w[0] && (w + t)[1..] == w[1..] + t;
      WordLenJoin(w[1..], t);
    }
  }

  /** A word followed by a blank and a normal string is normal. */
  lemma NormalCons(w: string, rest: string)
    requires w != [] && forall i :: 0 <= i < |w| ==> !IsSpace(w[i])
    requires rest != [] && Normal(rest)
    ensures Normal(w + ([' '] + rest))
  {
    var c := w + ([' '] + rest);
    WordLenJoin(w, [' '] + rest);
    assert c[|w|] == ' ' && c[|w| + 1..] == rest;
  }

  /** Collapsing always yields the normal shape. */
  lemma {:induction false} CollapseNormal(s: string)
    ensures Normal(Collapse(s))
    decreases |s|
  {
    if s == [] {
    } else if IsSpace(s[0]) {
      CollapseNormal(s[1..]);
    } else {
      var n := WordLen(s);
      var w := s[..n];
      CollapseNormal(s[n..]);
      var rest := Collapse(s[n..]);
      if rest == [] {
        WordLenAll(w);
      } else {
        NormalCons(w, rest);
      }
    }
  }

  /** In the normal shape every blank is a single `' '` with a non-blank on each side. */
  lemma {:induction false} NormalBlanks(s: string)
    requires Normal(s)
    ensures forall i :: 0 <= i < |s| && IsSpace(s[i]) ==> s[i] == ' ' && 0 < i && i + 1 < |s| && !IsSpace(s[i + 1])
    decreases |s|
  {
    if s != [] {
      var n := WordLen(s);
      if n < |s| {
        var rest := s[n + 1..];
        NormalBlanks(rest);
        assert !IsSpace(rest[0]);
        forall i | 0 <= i < |s| && IsSpace(s[i])
          ensures s[i] == ' ' && 0 < i && i + 1 < |s| && !IsSpace(s[i + 1])
        {
          if i > n {
            assert s[i] == rest[i - n - 1];
            assert i - n < |rest| ==> s[i + 1] == rest[i - n];
          }
        }
      }
    }
  }

  /** Collapsing a string that starts with a word followed by a blank. */
  lemma CollapseWordThenBlank(s: string)
    requires s != [] && !IsSpace(s[0]) && WordLen(s) < |s|
    ensures var n := WordLen(s); var rest := Collapse(s[n + 1..]);
      Collapse(s) == s[..n] + (if rest == [] then [] else [' '] + rest)
  {
    var n := WordLen(s);
    var tail := s[n..];
    assert tail[0] == s[n] && IsSpace(tail[0]);
    assert tail[1..] == s[n + 1..];
    assert Collapse(tail) == Collapse(s[n + 1..]);
  }

  lemma CollapseOneWord(s: string)
    requires s != [] && !IsSpace(s[0]) && WordLen(s) == |s|
    ensures Collapse(s) == s
  {
    assert s[|s|..] == [];
  }

  /** A string that already has the normal shape is left alone. */
  lemma {:induction false} CollapseNormalFixed(s: string)
    requires Normal(s)
    ensures Collapse(s) == s
    decreases |s|
  {
    if s != [] {
      var n := WordLen(s);
      assert !IsSpace(s[0]);
      if n < |s| {
        CollapseNormalFixed(s[n + 1..]);
        CollapseWordThenBlank(s);
        assert s == s[..n] + [' '] + s[n + 1..];
      } else {
        CollapseOneWord(s);
      }
    }
  }

  /** `' '.join(s.split())` is idempotent. */
  lemma CollapseIdempotent(s: string)
    ensures Collapse(Collapse(s)) == Collapse(s)
  {
    CollapseNormal(s);
    CollapseNormalFixed(Collapse(s));
  }

  /** Collapsing is empty exactly when every character is blank. */
  lemma {:induction false} CollapseEmptyIff(s: string)
    ensures Collapse(s) == [] <==> AllSpace(s)
    decreases |s|
  {
    if s != [] {
      if IsSpace(s[0]) {
        CollapseEmptyIff(s[1..]);
        if AllSpace(s[1..]) {
          forall i | 0 <= i < |s| ensures IsSpace(s[i]) {
            if i > 0 { assert s[i] == s[1..][i - 1]; }
          }
        } else {
          var i :| 0 <= i < |s[1..]| && !IsSpace(s[1..][i]);
          assert !IsSpace(s[i + 1]);
        }
      }
    }
  }

  /** Collapsing never lengthens a string. */
  lemma {:induction false} CollapseShorter(s: string)
    ensures |Collapse(s)| <= |s|
    decreases |s|
  {
    if s != [] {
      if IsSpace(s[0]) {
        CollapseShorter(s[1..]);
      } else {
        var n := WordLen(s);
        CollapseShorter(s[n..]);
        if n < |s| {
          assert IsSpace(s[n]);
          assert Collapse(s[n..]) == Collapse(s[n..][1..]);
          CollapseShorter(s[n..][1..]);
        } else {
          assert s[n..] == [];
        }
      }
    }
  }

  /** `s[:n]` for a non-negative `n`. */
  function Cap(s: string, n: nat): (r: string)
    ensures |r| <= n && |r| <= |s| && r == s[..|r|]
    ensures |s| <= n ==> r == s
    ensures |s| > n ==> |r| == n
  {
    if |s| <= n then s else s[..n]
  }

  function LowerChar(c: char): char
  {
    if 'A' <= c <= 'Z' then (c as int + 32) as char else c
  }

  /** `s.lower()`, restricted to ASCII letters. */
  function Lower(s: string): (r: string)
    ensures |r| == |s|
    ensures forall i :: 0 <= i < |s| ==> r[i] == LowerChar(s[i])
  {
    seq(|s|, i requires 0 <= i < |s| => LowerChar(s[i]))
  }

  /** Python's `pat in text` for strings. */
  predicate Contains(text: string, pat: string)
  {
    pat <= text || (text != [] && Contains(text[1..], pat))
  }

  /** `sep.join(parts)` */
  function Join(parts: seq<string>, sep: string): string
  {
    if parts == [] then ""
    else if |parts| == 1 then parts[0]
    else parts[0] + sep + Join(parts[1..], sep)
  }

  /** Joining one more part appends the separator and that part. */
  lemma {:induction false} JoinSnoc(parts: seq<string>, sep: string, w: string)
    requires parts != []
    ensures Join(parts + [w], sep) == Join(parts, sep) + sep + w
    decreases |parts|
  {
    if |parts| > 1 {
      JoinSnoc(parts[1..], sep, w);
      assert (parts + [w])[1..] == parts[1..] + [w];
    } else {
      assert (parts + [w])[1..] == [w];
    }
  }

  /** `s.replace(c, by)` for a one-character pattern. */
  function Replace(s: string, c: char, rep: string): (r: string)
  {
    if s == [] then []
    else (if s[0] == c then rep else [s[0]]) + Replace(s[1..], c, rep)
  }

  lemma {:induction false} ReplaceAppend(a: string, b: string, c: char, rep: string)
    ensures Replace(a + b, c, rep) == Replace(a, c, rep) + Replace(b, c, rep)
    decreases |a|
  {
    if a == [] {
      assert a + b == b;
    } else {
      assert (a + b)[0] == a[0];
      assert (a + b)[1..] == a[1..] + b;
      ReplaceAppend(a[1..], b, c, rep);
    }
  }

  /** Python's `key.split(sep)[0]`: everything before the first `sep`. */
  function BeforeFirst(s: string, sep: char): (r: string)
    ensures |r| <= |s| && r == s[..|r|]
    ensures sep !in r
    ensures |r| < |s| ==> s[|r|] == sep
  {
    if s == [] || s[0] == sep then [] else [s[0]] + BeforeFirst(s[1..], sep)
  }

  function DigitChar(d: nat): char
    requires d < 10
  {
    ['0', '1', '2', '3', '4', '5', '6', '7', '8', '9'][d]
  }

  function NatToString(n: nat): (r: string)
    ensures r != []
  {
    if n < 10 then [DigitChar(n)] else NatToString(n / 10) + [DigitChar(n % 10)]
  }

  /** `str(i)` for an integer. */
  function IntToString(i: int): string
  {
    if i < 0 then "-" + NatToString(-i) else NatToString(i)
  }

  // ---------------------------------------------------------------- joining

  /** `[row(x) for x in xs]` */
  function Mapped<T>(xs: seq<T>, row: T -> string): seq<string>
  {
    if xs == [] then [] else Mapped(xs[..|xs| - 1], row) + [row(xs[|xs| - 1])]
  }

  lemma {:induction false} MappedAppend<T>(a: seq<T>, b: seq<T>, row: T -> string)
    ensures Mapped(a + b, row) == Mapped(a, row) + Mapped(b, row)
    decreases |b|
  {
    if b == [] {
      assert a + b == a;
    } else {
      MappedAppend(a, b[..|b| - 1], row);
      assert (a + b)[..|a + b| - 1] == a + b[..|b| - 1];
    }
  }

  /** Rows written one after the other. */
  function Concat(rows: seq<string>): string
  {
    if rows == [] then "" else Concat(rows[..|rows| - 1]) + rows[|rows| - 1]
  }

  lemma {:induction false} ConcatAppend(a: seq<string>, b: seq<string>)
    ensures Concat(a + b) == Concat(a) + Concat(b)
    decreases |b|
  {
    if b == [] {
      assert a + b == a;
    } else {
      var b0 := b[..|b| - 1];
      ConcatAppend(a, b0);
      assert (a + b)[..|a + b| - 1] == a + b0;
      assert (a + b)[|a + b| - 1] == b[|b| - 1];
    }
  }

  /** Writing one more mapped row extends the text by that row. */
  lemma ConcatMappedStep<T>(xs: seq<T>, i: nat, row: T -> string)
    requires i < |xs|
    ensures Concat(Mapped(xs[..i + 1], row)) == Concat(Mapped(xs[..i], row)) + row(xs[i])
  {
    assert xs[..i + 1][..i] == xs[..i];
    var done := Mapped(xs[..i], row);
    assert (done + [row(xs[i])])[..|done|] == done;
  }

  /** `for x in xs: text += row(x)`, starting from the empty text. */
  method WriteMapped<T>(xs: seq<T>, row: T -> string) returns (text: string)
    ensures text == Concat(Mapped(xs, row))
  {
    text := "";
    var i := 0;
    while i < |xs|
      invariant 0 <= i <= |xs|
      invariant text == Concat(Mapped(xs[..i], row))
    {
      ConcatMappedStep(xs, i, row);
      text := text + row(xs[i]);
      i := i + 1;
    }
    assert xs[..i] == xs;
  }
}
