/**
 * The string helpers at the top of lookml/lookml.py: `splice`, `stringify`,
 * `tidy`, `removeSpace`, `snakeCase`, `lookCase`, and the literal-pattern
 * substitution that `setName_safe` performs with `re.sub`.
 */
module Text {

  /** `splice(*args)`: `''.join(args)`. */
  function Concat(items: seq<string>): string
  {
    if items == [] then "" else items[0] + Concat(items[1..])
  }

  /** `sep.join(items)`. */
  function Join(sep: string, items: seq<string>): string
  {
    if items == [] then ""
    else if |items| == 1 then items[0]
    else items[0] + sep + Join(sep, items[1..])
  }

  /** `[delim + x for x in items]`. */
  function PrefixEach(delim: string, items: seq<string>): (r: seq<string>)
    ensures |r| == |items|
    ensures forall i :: 0 <= i < |items| ==> r[i] == delim + items[i]
  {
    if items == [] then [] else [delim + items[0]] + PrefixEach(delim, items[1..])
  }

  /** `stringify(collection, delim, prefix, postfix)` on already rendered items. */
  function Stringify(items: seq<string>, delim: string, prefix: bool, postfix: bool): string
  {
    (if prefix then delim else "") + Join(delim, items) + (if postfix then delim else "")
  }

  /**
   * With the default `prefix=True`, every rendered item of a non-empty
   * collection is preceded by the delimiter and nothing else is added.
   */
  lemma {:induction false} StringifyPrefixed(items: seq<string>, delim: string)
    requires items != []
    ensures Stringify(items, delim, true, false) == Concat(PrefixEach(delim, items))
  {
    if |items| == 1 {
      assert PrefixEach(delim, items) == [delim + items[0]];
    } else {
      StringifyPrefixed(items[1..], delim);
      assert PrefixEach(delim, items) == [delim + items[0]] + PrefixEach(delim, items[1..]);
    }
  }

  // ---------------------------------------------------------------- tidy

  /** The characters Python's `\s` matches in a `str` pattern. */
  predicate IsSpace(c: char)
  {
    c == ' ' || c == '\t' || c == '\n' || c == '\r' || c == '\U{B}' || c == '\U{C}'
    || ('\U{1C}' <= c <= '\U{1F}') || c == '\U{85}' || c == '\U{A0}' || c == '\U{1680}'
    || ('\U{2000}' <= c <= '\U{200A}') || c == '\U{2028}' || c == '\U{2029}'
    || c == '\U{202F}' || c == '\U{205F}' || c == '\U{3000}'
  }

  predicate AllSpace(s: string)
  {
    forall i :: 0 <= i < |s| ==> IsSpace(s[i])
  }

  /** The length of the whitespace run that starts `s`. */
  function RunLen(s: string): (k: nat)
    ensures k <= |s|
    ensures AllSpace(s[..k])
    ensures k < |s| ==> !IsSpace(s[k])
  {
    if s != [] && IsSpace(s[0]) then
      var k := 1 + RunLen(s[1..]);
      assert s[..k] == [s[0]] + s[1..][..k - 1];
      k
    else 0
  }

  /** What `tidy` puts in place of a run of ten or more whitespace characters. */
  const TidyBreak: string := "\n  "

  /** `tidy(s)`: `re.sub(r'\s{10,}', '\n  ', s)`. */
  function Tidy(s: string): string
    decreases |s|
  {
    if s == [] then []
    else if IsSpace(s[0]) then
      var k := RunLen(s);
      (if k >= 10 then TidyBreak else s[..k]) + Tidy(s[k..])
    else [s[0]] + Tidy(s[1..])
  }

  /** Every maximal whitespace run of `s` is shorter than ten characters. */
  predicate ShortRuns(s: string)
    decreases |s|
  {
    if s == [] then true
    else if IsSpace(s[0]) then RunLen(s) < 10 && ShortRuns(s[RunLen(s)..])
    else ShortRuns(s[1..])
  }

  /** The ten characters of `s` starting at `i` exist and are all whitespace. */
  predicate SpaceWindow(s: string, i: nat)
  {
    i + 10 <= |s| && AllSpace(s[i..i + 10])
  }

  /** No ten consecutive characters of `s` are all whitespace. */
  ghost predicate NoLongRun(s: string)
  {
    forall i: nat :: !SpaceWindow(s, i)
  }

  /** The non-whitespace characters of `s`, in order. */
  function NonSpace(s: string): string
  {
    if s == [] then [] else (if IsSpace(s[0]) then [] else [s[0]]) + NonSpace(s[1..])
  }

  lemma {:induction false} NonSpaceAppend(a: string, b: string)
    ensures NonSpace(a + b) == NonSpace(a) + NonSpace(b)
  {
    if a == [] {
      assert a + b == b;
    } else {
      assert (a + b)[0] == a[0];
      assert (a + b)[1..] == a[1..] + b;
      NonSpaceAppend(a[1..], b);
    }
  }

  lemma {:induction false} NonSpaceOfSpaces(a: string)
    requires AllSpace(a)
    ensures NonSpace(a) == []
  {
    if a != [] {
      NonSpaceOfSpaces(a[1..]);
    }
  }

  lemma {:induction false} RunLenOfSpaces(seg: string, t: string)
    requires AllSpace(seg)
    requires t == [] || !IsSpace(t[0])
    ensures RunLen(seg + t) == |seg|
  {
    if seg != [] {
      assert (seg + t)[1..] == seg[1..] + t;
      RunLenOfSpaces(seg[1..], t);
    }
  }

  lemma ShortRunsSpaces(seg: string, t: string)
    requires seg != [] && AllSpace(seg) && |seg| < 10
    requires t == [] || !IsSpace(t[0])
    requires ShortRuns(t)
    ensures ShortRuns(seg + t)
  {
    RunLenOfSpaces(seg, t);
    assert (seg + t)[|seg|..] == t;
  }

  /** The output of `tidy` holds no whitespace run of ten or more characters. */
  lemma {:induction false} TidyShortRuns(s: string)
    ensures ShortRuns(Tidy(s))
    decreases |s|
  {
    if s == [] {
    } else if IsSpace(s[0]) {
      var k := RunLen(s);
      var rest := s[k..];
      TidyShortRuns(rest);
      var seg := if k >= 10 then TidyBreak else s[..k];
      assert AllSpace(TidyBreak);
      assert rest == [] || Tidy(rest)[0] == rest[0];
      ShortRunsSpaces(seg, Tidy(rest));
    } else {
      TidyShortRuns(s[1..]);
      assert ([s[0]] + Tidy(s[1..]))[1..] == Tidy(s[1..]);
    }
  }

  /** A string without a long whitespace run is left as it is. */
  lemma {:induction false} TidyKeepsShortRuns(s: string)
    requires ShortRuns(s)
    ensures Tidy(s) == s
    decreases |s|
  {
    if s == [] {
    } else if IsSpace(s[0]) {
      var k := RunLen(s);
      TidyKeepsShortRuns(s[k..]);
      assert s[..k] + s[k..] == s;
    } else {
      TidyKeepsShortRuns(s[1..]);
    }
  }

  /** `tidy` is idempotent. */
  lemma TidyIdempotent(s: string)
    ensures Tidy(Tidy(s)) == Tidy(s)
  {
    TidyShortRuns(s);
    TidyKeepsShortRuns(Tidy(s));
  }

  /** Short runs mean no window of ten consecutive whitespace characters. */
  lemma {:induction false} ShortRunsNoLongRun(s: string)
    requires ShortRuns(s)
    ensures NoLongRun(s)
    decreases |s|
  {
    if s == [] {
    } else if IsSpace(s[0]) {
      var k := RunLen(s);
      ShortRunsNoLongRun(s[k..]);
      forall i: nat ensures !SpaceWindow(s, i) {
        if i + 10 <= |s| {
          if i < k {
            assert s[i..i + 10][k - i] == s[k];
          } else {
            assert s[i..i + 10] == s[k..][i - k..i - k + 10];
            assert !SpaceWindow(s[k..], i - k);
          }
        }
      }
    } else {
      ShortRunsNoLongRun(s[1..]);
      forall i: nat ensures !SpaceWindow(s, i) {
        if i + 10 <= |s| {
          if i == 0 {
            assert s[i..i + 10][0] == s[0];
          } else {
            assert s[i..i + 10] == s[1..][i - 1..i + 9];
            assert !SpaceWindow(s[1..], i - 1);
          }
        }
      }
    }
  }

  /** After `tidy`, no ten consecutive characters are whitespace. */
  lemma TidyNoLongRun(s: string)
    ensures NoLongRun(Tidy(s))
  {
    TidyShortRuns(s);
    ShortRunsNoLongRun(Tidy(s));
  }

  /** `tidy` keeps every non-whitespace character, in order. */
  lemma {:induction false} TidyKeepsText(s: string)
    ensures NonSpace(Tidy(s)) == NonSpace(s)
    decreases |s|
  {
    if s == [] {
    } else if IsSpace(s[0]) {
      var k := RunLen(s);
      var seg := if k >= 10 then TidyBreak else s[..k];
      TidyKeepsText(s[k..]);
      NonSpaceAppend(seg, Tidy(s[k..]));
      NonSpaceOfSpaces(seg);
      assert s == s[..k] + s[k..];
      NonSpaceAppend(s[..k], s[k..]);
      NonSpaceOfSpaces(s[..k]);
    } else {
      TidyKeepsText(s[1..]);
      assert ([s[0]] + Tidy(s[1..]))[1..] == Tidy(s[1..]);
    }
  }

  // ------------------------------------------------ literal substitution

  predicate StartsWith(s: string, p: string)
  {
    |p| <= |s| && s[..|p|] == p
  }

  /** `p` occurs somewhere in `s`. */
  predicate Contains(s: string, p: string)
    decreases |s|
  {
    StartsWith(s, p) || (s != [] && Contains(s[1..], p))
  }

  /**
   * `re.sub(p, q, s)` for a pattern that matches only the literal text `p`:
   * every non-overlapping occurrence, scanned left to right, becomes `q`.
   */
  function ReplaceAll(s: string, p: string, q: string): string
    requires |p| > 0
    decreases |s|
  {
    if |s| < |p| then s
    else if s[..|p|] == p then q + ReplaceAll(s[|p|..], p, q)
    else [s[0]] + ReplaceAll(s[1..], p, q)
  }

  lemma {:induction false} ContainsLength(s: string, p: string)
    requires Contains(s, p)
    ensures |p| <= |s|
    decreases |s|
  {
    if !StartsWith(s, p) {
      ContainsLength(s[1..], p);
    }
  }

  lemma ContainsCons(c: char, s: string, p: string)
    requires Contains(s, p)
    ensures Contains([c] + s, p)
  {
    assert ([c] + s)[1..] == s;
  }

  /** Where the pattern occurred, its replacement now occurs. */
  lemma {:induction false} ReplaceAllIntroduces(s: string, p: string, q: string)
    requires |p| > 0 && Contains(s, p)
    ensures Contains(ReplaceAll(s, p, q), q)
    decreases |s|
  {
    ContainsLength(s, p);
    if s[..|p|] == p {
      assert (q + ReplaceAll(s[|p|..], p, q))[..|q|] == q;
    } else {
      ReplaceAllIntroduces(s[1..], p, q);
      ContainsCons(s[0], ReplaceAll(s[1..], p, q), q);
    }
  }

  /** Text without the pattern is left unchanged. */
  lemma {:induction false} ReplaceAllAbsent(s: string, p: string, q: string)
    requires |p| > 0 && !Contains(s, p)
    ensures ReplaceAll(s, p, q) == s
    decreases |s|
  {
    if |s| >= |p| {
      ReplaceAllAbsent(s[1..], p, q);
    }
  }

  /** A LookML reference `${...}`: it opens with the only `$` and closes with the only `}`. */
  predicate Delimited(p: string)
  {
    |p| >= 2 && p[0] == '$' && p[|p| - 1] == '}' &&
    (forall i :: 0 < i < |p| ==> p[i] != '$') &&
    (forall i :: 0 <= i < |p| - 1 ==> p[i] != '}')
  }

  /** A name with none of the characters that delimit or qualify a reference. */
  predicate PlainName(n: string)
  {
    forall i :: 0 <= i < |n| ==> n[i] !in {'$', '{', '}', '.'}
  }

  lemma ShortRefDelimited(n: string)
    requires PlainName(n)
    ensures Delimited("${" + n + "}")
  {
    var r := "${" + n + "}";
    forall i | 0 < i < |r| ensures r[i] != '$' {
      if 2 <= i < |r| - 1 { assert r[i] == n[i - 2]; }
    }
    forall i | 0 <= i < |r| - 1 ensures r[i] != '}' {
      if 2 <= i { assert r[i] == n[i - 2]; }
    }
  }

  lemma FullRefDelimited(v: string, n: string)
    requires PlainName(v) && PlainName(n)
    ensures Delimited("${" + v + "." + n + "}")
  {
    var r := "${" + v + "." + n + "}";
    forall i | 0 < i < |r| ensures r[i] != '$' {
      if 2 <= i < 2 + |v| { assert r[i] == v[i - 2]; }
      else if 3 + |v| <= i < |r| - 1 { assert r[i] == n[i - 3 - |v|]; }
    }
    forall i | 0 <= i < |r| - 1 ensures r[i] != '}' {
      if 2 <= i < 2 + |v| { assert r[i] == v[i - 2]; }
      else if 3 + |v| <= i < |r| - 1 { assert r[i] == n[i - 3 - |v|]; }
    }
  }

  /** A short reference never equals a full one: only the full one holds a dot. */
  lemma ShortIsNotFull(n: string, v: string, m: string)
    requires PlainName(n)
    ensures "${" + n + "}" != "${" + v + "." + m + "}"
  {
    var a := "${" + n + "}";
    var b := "${" + v + "." + m + "}";
    if |a| == |b| {
      assert b[2 + |v|] == '.';
      assert a[2 + |v|] == n[|v|] != '.';
    }
  }

  /** Two references that start the same text are the same reference: each ends at the first `}`. */
  lemma HeadClash(q: string, r: string, w: string)
    requires Delimited(q) && Delimited(w) && StartsWith(q + r, w)
    ensures w == q
  {
    var n, m := |q|, |w|;
    var i := if m <= n then m - 1 else n - 1;
    assert w[i] == (q + r)[i] == q[i];
    assert m == n;
    assert w == (q + r)[..m] == q;
  }

  /** A match of text that opens with `$` found nowhere in `a` but at its start lies in `a`'s first character or in `b`. */
  lemma {:induction false} ContainsSplit(a: string, b: string, w: string)
    requires forall j :: 0 <= j < |a| ==> !StartsWith((a + b)[j..], w)
    requires !Contains(b, w)
    ensures !Contains(a + b, w)
    decreases |a|
  {
    if a != [] {
      assert (a + b)[0..] == a + b;
      assert (a + b)[1..] == a[1..] + b;
      forall j | 0 <= j < |a[1..]| ensures !StartsWith((a[1..] + b)[j..], w) {
        assert (a[1..] + b)[j..] == (a + b)[j + 1..];
      }
      ContainsSplit(a[1..], b, w);
    } else {
      assert a + b == b;
    }
  }

  /** Text that `b` holds, `a + b` holds. */
  lemma {:induction false} ContainsAppend(a: string, b: string, w: string)
    requires Contains(b, w)
    ensures Contains(a + b, w)
    decreases |a|
  {
    if a == [] {
      assert a + b == b;
    } else {
      ContainsAppend(a[1..], b, w);
      assert (a + b)[1..] == a[1..] + b;
    }
  }

  /** A reference cannot start inside another one. */
  lemma InsideRef(q: string, r: string, w: string)
    requires Delimited(q) && Delimited(w) && w != q
    ensures forall j :: 0 <= j < |q| ==> !StartsWith((q + r)[j..], w)
  {
    forall j | 0 <= j < |q| ensures !StartsWith((q + r)[j..], w) {
      if j == 0 {
        assert (q + r)[0..] == q + r;
        if StartsWith(q + r, w) { HeadClash(q, r, w); }
      } else {
        assert (q + r)[j..][0] == q[j] != '$';
      }
    }
  }

  /** Up to the first `$` of the result, a replacement copies its input. */
  lemma {:induction false} ReplacePrefix(s: string, p: string, q: string, k: nat)
    requires |p| > 0 && p[0] == '$' && |q| > 0 && q[0] == '$'
    requires k <= |ReplaceAll(s, p, q)| && forall i :: 0 <= i < k ==> ReplaceAll(s, p, q)[i] != '$'
    ensures k <= |s| && s[..k] == ReplaceAll(s, p, q)[..k]
    decreases |s|
  {
    if k > 0 && |s| >= |p| {
      assert ReplaceAll(s, p, q)[0] != '$';
      assert s[..|p|] != p;
      var r := ReplaceAll(s[1..], p, q);
      assert ReplaceAll(s, p, q) == [s[0]] + r;
      forall i | 0 <= i < k - 1 ensures r[i] != '$' {
        assert r[i] == ReplaceAll(s, p, q)[i + 1];
      }
      ReplacePrefix(s[1..], p, q, k - 1);
      assert s[..k] == [s[0]] + s[1..][..k - 1];
    }
  }

  /** Text before the first `$` passes through a replacement unchanged. */
  lemma {:induction false} ReplaceKeepsPrefix(s: string, p: string, q: string, k: nat)
    requires |p| > 0 && p[0] == '$'
    requires k <= |s| && forall i :: 0 <= i < k ==> s[i] != '$'
    ensures k <= |ReplaceAll(s, p, q)| && ReplaceAll(s, p, q)[..k] == s[..k]
    decreases |s|
  {
    if k > 0 && |s| >= |p| {
      assert s[..|p|][0] == s[0] != '$';
      var r := ReplaceAll(s[1..], p, q);
      assert ReplaceAll(s, p, q) == [s[0]] + r;
      ReplaceKeepsPrefix(s[1..], p, q, k - 1);
      assert s[..k] == [s[0]] + s[1..][..k - 1];
      assert ReplaceAll(s, p, q)[..k] == [s[0]] + r[..k - 1];
    }
  }

  /** A reference at the head of a replacement's output that did not replace the head was there before. */
  lemma HeadFromReplace(s: string, p: string, q: string, w: string)
    requires |p| > 0 && p[0] == '$' && Delimited(q) && Delimited(w) && s != []
    ensures StartsWith([s[0]] + ReplaceAll(s[1..], p, q), w) ==> StartsWith(s, w)
  {
    var r := ReplaceAll(s[1..], p, q);
    var out := [s[0]] + r;
    if StartsWith(out, w) {
      var k := |w| - 1;
      forall i | 0 <= i < k ensures r[i] != '$' {
        assert r[i] == out[i + 1] == w[i + 1];
      }
      ReplacePrefix(s[1..], p, q, k);
      assert s[..|w|] == [s[0]] + s[1..][..k];
      assert w == [out[0]] + out[1..|w|];
      assert out[1..|w|] == r[..k];
    }
  }

  /** After replacing a reference by a different one, the old reference is gone. */
  lemma {:induction false} ReplaceAllRemoves(s: string, p: string, q: string)
    requires Delimited(p) && Delimited(q) && p != q
    ensures !Contains(ReplaceAll(s, p, q), p)
    decreases |s|
  {
    var out := ReplaceAll(s, p, q);
    if |s| < |p| {
      if Contains(s, p) { ContainsLength(s, p); }
    } else if s[..|p|] == p {
      var r := ReplaceAll(s[|p|..], p, q);
      ReplaceAllRemoves(s[|p|..], p, q);
      InsideRef(q, r, p);
      ContainsSplit(q, r, p);
    } else {
      var r := ReplaceAll(s[1..], p, q);
      ReplaceAllRemoves(s[1..], p, q);
      assert out == [s[0]] + r;
      HeadFromReplace(s, p, q, p);
      assert out[0..] == out;
      ContainsSplit([s[0]], r, p);
    }
  }

  /** A reference other than the replaced one, if present, stays present. */
  lemma {:induction false} ReplaceAllKeeps(s: string, p: string, q: string, w: string)
    requires Delimited(p) && Delimited(w) && p != w && Contains(s, w)
    ensures Contains(ReplaceAll(s, p, q), w)
    decreases |s|
  {
    var out := ReplaceAll(s, p, q);
    if |s| < |p| {
    } else if s[..|p|] == p {
      var rest := s[|p|..];
      assert s == p + rest;
      InsideRef(p, rest, w);
      if !Contains(rest, w) {
        ContainsSplit(p, rest, w);
      }
      ReplaceAllKeeps(rest, p, q, w);
      ContainsAppend(q, ReplaceAll(rest, p, q), w);
    } else {
      var r := ReplaceAll(s[1..], p, q);
      assert out == [s[0]] + r;
      if StartsWith(s, w) {
        var k := |w| - 1;
        var t := s[1..];
        forall i | 0 <= i < k ensures t[i] != '$' {
          assert t[i] == s[..|w|][i + 1] == w[i + 1];
        }
        ReplaceKeepsPrefix(t, p, q, k);
        assert t[..k] == w[1..];
        assert out[..|w|] == [s[0]] + r[..k] == w;
      } else {
        ReplaceAllKeeps(s[1..], p, q, w);
        ContainsCons(s[0], r, w);
      }
    }
  }

  /** Replacing by a reference other than `w` brings no `w` that was not there. */
  lemma {:induction false} ReplaceAllAddsNone(s: string, p: string, q: string, w: string)
    requires |p| > 0 && p[0] == '$' && Delimited(q) && Delimited(w) && q != w && !Contains(s, w)
    ensures !Contains(ReplaceAll(s, p, q), w)
    decreases |s|
  {
    var out := ReplaceAll(s, p, q);
    if |s| < |p| {
    } else if s[..|p|] == p {
      var r := ReplaceAll(s[|p|..], p, q);
      if Contains(s[|p|..], w) {
        assert s == s[..|p|] + s[|p|..];
        ContainsAppend(s[..|p|], s[|p|..], w);
      }
      ReplaceAllAddsNone(s[|p|..], p, q, w);
      InsideRef(q, r, w);
      ContainsSplit(q, r, w);
    } else {
      var r := ReplaceAll(s[1..], p, q);
      assert out == [s[0]] + r;
      ReplaceAllAddsNone(s[1..], p, q, w);
      HeadFromReplace(s, p, q, w);
      assert out[0..] == out;
      ContainsSplit([s[0]], r, w);
    }
  }

  /** Text with no `}` holds no reference. */
  lemma {:induction false} NoCloseNoRef(t: string, w: string)
    requires Delimited(w) && forall i :: 0 <= i < |t| ==> t[i] != '}'
    ensures !Contains(t, w)
    decreases |t|
  {
    if |w| <= |t| {
      assert t[..|w|][|w| - 1] == t[|w| - 1] != '}';
    }
    if t != [] {
      NoCloseNoRef(t[1..], w);
    }
  }

  /** Text that `s` holds, `s + t` holds. */
  lemma {:induction false} ContainsExtend(s: string, t: string, w: string)
    requires Contains(s, w)
    ensures Contains(s + t, w)
    decreases |s|
  {
    if StartsWith(s, w) {
      assert (s + t)[..|w|] == s[..|w|];
    } else {
      ContainsExtend(s[1..], t, w);
      assert (s + t)[1..] == s[1..] + t;
    }
  }

  /** A reference found in `s + t`, where `t` has no `}`, lies in `s`. */
  lemma {:induction false} ContainsTrim(s: string, t: string, w: string)
    requires Delimited(w) && (forall i :: 0 <= i < |t| ==> t[i] != '}') && Contains(s + t, w)
    ensures Contains(s, w)
    decreases |s|
  {
    if s == [] {
      assert s + t == t;
      NoCloseNoRef(t, w);
    } else if StartsWith(s + t, w) {
      var k := |w| - 1;
      assert (s + t)[k] == w[k] == '}';
      assert k < |s|;
      assert s[..|w|] == (s + t)[..|w|];
    } else {
      assert (s + t)[1..] == s[1..] + t;
      ContainsTrim(s[1..], t, w);
    }
  }

  /** Every item of `sep.join(items)` occurs in it. */
  lemma {:induction false} JoinContains(sep: string, items: seq<string>, k: int)
    requires 0 <= k < |items|
    ensures Contains(Join(sep, items), items[k])
    decreases |items|
  {
    if k == 0 {
      assert StartsWith(items[0], items[0]);
      if |items| > 1 {
        ContainsExtend(items[0], sep + Join(sep, items[1..]), items[0]);
        assert items[0] + sep + Join(sep, items[1..]) == items[0] + (sep + Join(sep, items[1..]));
      }
    } else {
      JoinContains(sep, items[1..], k - 1);
      ContainsAppend(items[0] + sep, Join(sep, items[1..]), items[k]);
    }
  }

  /** Every item of a stringified collection occurs in it. */
  lemma StringifyContains(items: seq<string>, delim: string, prefix: bool, postfix: bool, k: int)
    requires 0 <= k < |items|
    ensures Contains(Stringify(items, delim, prefix, postfix), items[k])
  {
    var pre := if prefix then delim else "";
    var post := if postfix then delim else "";
    JoinContains(delim, items, k);
    ContainsExtend(Join(delim, items), post, items[k]);
    ContainsAppend(pre, Join(delim, items) + post, items[k]);
    assert Stringify(items, delim, prefix, postfix) == pre + (Join(delim, items) + post);
  }

  /** Wrapping text in a prefix without `$` and a suffix without `}` neither adds nor hides a reference. */
  lemma Wrapped(pre: string, s: string, post: string, w: string)
    requires Delimited(w)
    requires forall i :: 0 <= i < |pre| ==> pre[i] != '$'
    requires forall i :: 0 <= i < |post| ==> post[i] != '}'
    ensures Contains(pre + s + post, w) <==> Contains(s, w)
  {
    assert pre + s + post == pre + (s + post);
    if Contains(s, w) {
      ContainsExtend(s, post, w);
      ContainsAppend(pre, s + post, w);
    }
    if Contains(pre + (s + post), w) {
      forall j | 0 <= j < |pre| ensures !StartsWith((pre + (s + post))[j..], w) {
        assert (pre + (s + post))[j..][0] == pre[j] != '$';
      }
      if !Contains(s + post, w) {
        ContainsSplit(pre, s + post, w);
      }
      ContainsTrim(s, post, w);
    }
  }

  // ---------------------------------------------- removeSpace, snakeCase

  /** The characters `removeSpace` deletes: `\s / [ ] | , < > . ? { } # = ~ ! + $ % ^ & * ( ) - :`. */
  predicate IsStripped(c: char)
  {
    IsSpace(c) || c == '/' || c == '[' || c == ']' || c == '|' || c == ',' || c == '<'
    || c == '>' || c == '.' || c == '?' || c == '{' || c == '}' || c == '#' || c == '='
    || c == '~' || c == '!' || c == '+' || c == '$' || c == '%' || c == '^' || c == '&'
    || c == '*' || c == '(' || c == ')' || c == '-' || c == ':'
  }

  /** `removeSpace(s)`: delete every run of stripped characters. */
  function RemoveSpace(s: string): (r: string)
    ensures forall i :: 0 <= i < |r| ==> !IsStripped(r[i])
    ensures |r| <= |s|
  {
    if s == [] then []
    else if IsStripped(s[0]) then RemoveSpace(s[1..])
    else [s[0]] + RemoveSpace(s[1..])
  }

  /** `removeSpace` leaves clean text alone, so it is idempotent. */
  lemma {:induction false} RemoveSpaceKeepsClean(s: string)
    requires forall i :: 0 <= i < |s| ==> !IsStripped(s[i])
    ensures RemoveSpace(s) == s
  {
    if s != [] {
      RemoveSpaceKeepsClean(s[1..]);
    }
  }

  predicate IsUpper(c: char) { 'A' <= c <= 'Z' }
  predicate IsLower(c: char) { 'a' <= c <= 'z' }
  predicate IsDigit(c: char) { '0' <= c <= '9' }

  predicate NoUpper(s: string)
  {
    forall i :: 0 <= i < |s| ==> !IsUpper(s[i])
  }

  /** The length of the run of `[a-z]` that starts `s`. */
  function LowerRun(s: string): (k: nat)
    ensures k <= |s|
    ensures forall i :: 0 <= i < k ==> IsLower(s[i])
    ensures k == |s| || !IsLower(s[k])
  {
    if s != [] && IsLower(s[0]) then 1 + LowerRun(s[1..]) else 0
  }

  /** `re.sub('(.)([A-Z][a-z]+)', r'\1_\2', s)`; `.` does not match a newline. */
  function SplitWords(s: string): string
    decreases |s|
  {
    if |s| >= 3 && s[0] != '\n' && IsUpper(s[1]) && IsLower(s[2]) then
      var j := 2 + LowerRun(s[2..]);
      [s[0], '_'] + s[1..j] + SplitWords(s[j..])
    else if s == [] then []
    else [s[0]] + SplitWords(s[1..])
  }

  /** `re.sub('([a-z0-9])([A-Z])', r'\1_\2', s)`. */
  function SplitHumps(s: string): string
    decreases |s|
  {
    if |s| >= 2 && (IsLower(s[0]) || IsDigit(s[0])) && IsUpper(s[1]) then
      [s[0], '_', s[1]] + SplitHumps(s[2..])
    else if s == [] then []
    else [s[0]] + SplitHumps(s[1..])
  }

  function LowerChar(c: char): char
  {
    if IsUpper(c) then (c as int + 32) as char else c
  }

  /** `s.lower()` on ASCII letters. */
  function Lower(s: string): (r: string)
    ensures |r| == |s|
    ensures NoUpper(r)
  {
    if s == [] then [] else [LowerChar(s[0])] + Lower(s[1..])
  }

  /** `snakeCase(s)`. */
  function SnakeCase(s: string): string
  {
    Lower(SplitHumps(SplitWords(s)))
  }

  /** `lookCase(s)`: `removeSpace(snakeCase(s))`. */
  function LookCase(s: string): string
  {
    RemoveSpace(SnakeCase(s))
  }

  lemma {:induction false} SplitWordsNoUpper(s: string)
    requires NoUpper(s)
    ensures SplitWords(s) == s
  {
    if s != [] {
      assert |s| >= 2 ==> !IsUpper(s[1]);
      SplitWordsNoUpper(s[1..]);
    }
  }

  lemma {:induction false} SplitHumpsNoUpper(s: string)
    requires NoUpper(s)
    ensures SplitHumps(s) == s
  {
    if s != [] {
      SplitHumpsNoUpper(s[1..]);
    }
  }

  lemma {:induction false} LowerNoUpper(s: string)
    requires NoUpper(s)
    ensures Lower(s) == s
  {
    if s != [] {
      LowerNoUpper(s[1..]);
    }
  }

  /** `snakeCase` leaves text without capitals alone, so it is idempotent. */
  lemma SnakeCaseIdempotent(s: string)
    ensures NoUpper(SnakeCase(s))
    ensures SnakeCase(SnakeCase(s)) == SnakeCase(s)
  {
    var t := SnakeCase(s);
    SplitWordsNoUpper(t);
    SplitHumpsNoUpper(t);
    LowerNoUpper(t);
  }

  /** An identifier from `lookCase` has no capitals and no stripped characters. */
  lemma {:induction false} RemoveSpaceKeepsNoUpper(s: string)
    requires NoUpper(s)
    ensures NoUpper(RemoveSpace(s))
  {
    if s != [] {
      RemoveSpaceKeepsNoUpper(s[1..]);
    }
  }

  lemma LookCaseClean(s: string)
    ensures NoUpper(LookCase(s))
    ensures forall i :: 0 <= i < |LookCase(s)| ==> !IsStripped(LookCase(s)[i])
    ensures LookCase(LookCase(s)) == LookCase(s)
  {
    SnakeCaseIdempotent(s);
    RemoveSpaceKeepsNoUpper(SnakeCase(s));
    var t := LookCase(s);
    SplitWordsNoUpper(t);
    SplitHumpsNoUpper(t);
    LowerNoUpper(t);
    RemoveSpaceKeepsClean(t);
  }
}
