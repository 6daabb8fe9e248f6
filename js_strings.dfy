/**
 * The parts of JavaScript string semantics the order-alert code relies on:
 * the white space that `String.prototype.trim` and `parseFloat` skip,
 * `trim` itself, `Array.prototype.join` and `slice(0, n)`, the `||`
 * defaulting of an optional string field, and substring containment for
 * stating what a text shows.
 */
module JsStrings {
  import opened Wrappers

  /** WhiteSpace and LineTerminator code points of ECMAScript (sections 12.2 and 12.3 of ECMA-262). */
  predicate IsSpace(c: char) {
    c == '\t' || c == '\n' || c == '\U{B}' || c == '\U{C}' || c == '\r' || c == ' '
    || c == '\U{A0}' || c == '\U{1680}' || ('\U{2000}' <= c <= '\U{200A}')
    || c == '\U{2028}' || c == '\U{2029}' || c == '\U{202F}' || c == '\U{205F}'
    || c == '\U{3000}' || c == '\U{FEFF}'
  }

  predicate AllSpace(s: string) {
    forall i :: 0 <= i < |s| ==> IsSpace(s[i])
  }

  /** Neither end of `s` is white space (the empty string included). */
  predicate IsTrimmed(s: string) {
    s == [] || (!IsSpace(s[0]) && !IsSpace(s[|s| - 1]))
  }

  /** `s` with its leading white space removed: a suffix of `s` that starts with no white space. */
  function TrimStart(s: string): (r: string)
    ensures |r| <= |s| && r == s[|s| - |r|..]
    ensures r == [] || !IsSpace(r[0])
  {
    if s != [] && IsSpace(s[0]) then TrimStart(s[1..]) else s
  }

  /** `s` with its trailing white space removed: a prefix of `s` that ends with no white space. */
  function TrimEnd(s: string): (r: string)
    ensures |r| <= |s| && r == s[..|r|]
    ensures r == [] || !IsSpace(r[|r| - 1])
  {
    if s != [] && IsSpace(s[|s| - 1]) then TrimEnd(s[..|s| - 1]) else s
  }

  /** What `TrimStart` drops is white space, so its result is the longest such suffix. */
  lemma {:induction false} TrimStartDropsSpace(s: string)
    ensures AllSpace(s[..|s| - |TrimStart(s)|])
  {
    if s != [] && IsSpace(s[0]) {
      TrimStartDropsSpace(s[1..]);
      var n := |s| - |TrimStart(s)|;
      assert s[..n] == [s[0]] + s[1..][..n - 1];
    }
  }

  /** What `TrimEnd` drops is white space, so its result is the longest such prefix. */
  lemma {:induction false} TrimEndDropsSpace(s: string)
    ensures AllSpace(s[|TrimEnd(s)|..])
  {
    if s != [] && IsSpace(s[|s| - 1]) {
      var init := s[..|s| - 1];
      TrimEndDropsSpace(init);
      var k := |TrimEnd(s)|;
      assert s[k..] == init[k..] + [s[|s| - 1]];
    }
  }

  /** `String.prototype.trim`: the substring of `s` left after removing white space at both ends. */
  function Trim(s: string): (r: string)
    ensures IsTrimmed(r)
  {
    TrimEnd(TrimStart(s))
  }

  lemma SliceOfSuffix<T>(s: seq<T>, i: nat, k: nat)
    requires i + k <= |s|
    ensures s[i..][..k] == s[i..i + k] && s[i..][k..] == s[i + k..]
  {
  }

  /** `r` occurs in `s` at `i` with only white space before and after it. */
  predicate SpaceFramed(s: string, r: string, i: nat) {
    i + |r| <= |s| && s[i..i + |r|] == r && AllSpace(s[..i]) && AllSpace(s[i + |r|..])
  }

  /** What trim removes is white space: the result is the text between a white-space prefix and a white-space suffix. */
  lemma TrimRemovesOnlySpace(s: string)
    ensures exists i: nat :: SpaceFramed(s, Trim(s), i)
  {
    var t := TrimStart(s);
    var r := TrimEnd(t);
    assert r == Trim(s);
    var i := |s| - |t|;
    TrimStartDropsSpace(s);
    TrimEndDropsSpace(t);
    SliceOfSuffix(s, i, |r|);
    assert s[i..] == t;
    assert s[i..i + |r|] == r && s[i + |r|..] == t[|r|..];
    assert SpaceFramed(s, r, i);
  }

  lemma {:induction false} TrimStartOfSpaces(a: string, b: string)
    requires AllSpace(a)
    requires b == [] || !IsSpace(b[0])
    ensures TrimStart(a + b) == b
  {
    if a != [] {
      assert (a + b)[1..] == a[1..] + b;
      TrimStartOfSpaces(a[1..], b);
    } else {
      assert a + b == b;
    }
  }

  lemma {:induction false} TrimEndOfSpaces(a: string, b: string)
    requires AllSpace(b)
    requires a == [] || !IsSpace(a[|a| - 1])
    ensures TrimEnd(a + b) == a
  {
    if b != [] {
      assert (a + b)[..|a + b| - 1] == a + b[..|b| - 1];
      TrimEndOfSpaces(a, b[..|b| - 1]);
    } else {
      assert a + b == a;
    }
  }

  /** Trimming a text framed by white space gives back the text, when the text's own ends are not white space. */
  lemma TrimFramed(a: string, core: string, b: string)
    requires AllSpace(a) && AllSpace(b)
    requires core != [] && IsTrimmed(core)
    ensures Trim(a + core + b) == core
  {
    assert a + core + b == a + (core + b);
    TrimStartOfSpaces(a, core + b);
    TrimEndOfSpaces(core, b);
  }

  /** Trimming is idempotent. */
  lemma TrimIdempotent(s: string)
    ensures Trim(Trim(s)) == Trim(s)
  {
    var r := Trim(s);
    if r != [] {
      TrimFramed([], r, []);
      assert [] + r + [] == r;
    }
  }

  /** JavaScript truthiness of an optional string: present and not empty. */
  predicate Truthy(o: Option<string>) {
    o.Some? && o.value != ""
  }

  /** `o || fallback` for an optional string field. */
  function OrElse(o: Option<string>, fallback: string): (r: string)
    ensures Truthy(o) ==> r == o.value
    ensures !Truthy(o) ==> r == fallback
  {
    if Truthy(o) then o.value else fallback
  }

  /** `Array.prototype.slice(0, n)`: the first `n` elements, or all of them when there are fewer. */
  function Slice<T>(s: seq<T>, n: nat): (r: seq<T>)
    ensures |r| == if |s| < n then |s| else n
    ensures r == s[..|r|]
  {
    if |s| < n then s else s[..n]
  }

  /** `Array.prototype.join(sep)`: the parts in order with `sep` between neighbours. */
  function Join(parts: seq<string>, sep: string): string {
    if |parts| == 0 then ""
    else if |parts| == 1 then parts[0]
    else parts[0] + sep + Join(parts[1..], sep)
  }

  /** `t` occurs in `s` starting at position `i`. */
  predicate OccursAt(s: string, t: string, i: nat) {
    i + |t| <= |s| && s[i..i + |t|] == t
  }

  ghost predicate Contains(s: string, t: string) {
    exists i: nat :: OccursAt(s, t, i)
  }

  lemma ContainsMiddle(a: string, t: string, b: string)
    ensures Contains(a + t + b, t)
  {
    assert OccursAt(a + t + b, t, |a|);
  }

  lemma ContainsTransitive(a: string, b: string, c: string)
    requires Contains(a, b) && Contains(b, c)
    ensures Contains(a, c)
  {
    var i: nat :| OccursAt(a, b, i);
    var j: nat :| OccursAt(b, c, j);
    assert forall k :: 0 <= k < |c| ==> a[i + j + k] == a[i..i + |b|][j + k] == c[k];
    assert a[i + j..i + j + |c|] == c;
    assert OccursAt(a, c, i + j);
  }

  /** A joined text begins with its first part. */
  lemma {:induction false} JoinStartsWith(parts: seq<string>, sep: string)
    requires |parts| > 0
    ensures |parts[0]| <= |Join(parts, sep)| && Join(parts, sep)[..|parts[0]|] == parts[0]
  {
    if |parts| > 1 {
      var rest := sep + Join(parts[1..], sep);
      assert Join(parts, sep) == parts[0] + rest;
    }
  }

  /** A joined text ends with its last part. */
  lemma {:induction false} JoinEndsWith(parts: seq<string>, sep: string)
    requires |parts| > 0
    ensures var j := Join(parts, sep); var last := parts[|parts| - 1];
      |last| <= |j| && j[|j| - |last|..] == last
  {
    if |parts| > 1 {
      JoinEndsWith(parts[1..], sep);
      var tail := Join(parts[1..], sep);
      assert Join(parts, sep) == (parts[0] + sep) + tail;
    }
  }

  /** Every part occurs in the joined text. */
  lemma {:induction false} JoinContainsPart(parts: seq<string>, sep: string, k: nat)
    requires k < |parts|
    ensures Contains(Join(parts, sep), parts[k])
  {
    if k == 0 {
      JoinStartsWith(parts, sep);
      assert OccursAt(Join(parts, sep), parts[0], 0);
    } else {
      JoinContainsPart(parts[1..], sep, k - 1);
      var tail := Join(parts[1..], sep);
      assert Join(parts, sep) == (parts[0] + sep) + tail + [];
      ContainsMiddle(parts[0] + sep, tail, []);
      ContainsTransitive(Join(parts, sep), tail, parts[k]);
    }
  }
}
