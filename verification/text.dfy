/** Optional values, as Python's `None`-or-value fields and `dict.get` results. */
module Options {
  datatype Option<T> = None | Some(value: T) {
    /** `d.get(key, default)`: the value when present, the default otherwise. */
    function GetOr(default: T): T {
      match this
      case Some(v) => v
      case None => default
    }
  }
}

/** The Python string operations the chat backend relies on: `str.lower`,
    `str.strip`, the `in` operator on strings and `str.join`. */
module Text {

  /** Python's `str.isspace()` for one character: the ASCII controls 0x09-0x0D
      and 0x1C-0x1F, the space, and the Unicode spaces and separators. */
  predicate IsSpace(c: char) {
    ('\t' <= c <= '\r') || ('\U{1C}' <= c <= ' ') || c == '\U{85}' || c == '\U{A0}'
    || c == '\U{1680}' || ('\U{2000}' <= c <= '\U{200A}') || c == '\U{2028}' || c == '\U{2029}'
    || c == '\U{202F}' || c == '\U{205F}' || c == '\U{3000}'
  }

  predicate IsUpper(c: char) { 'A' <= c <= 'Z' }

  function LowerChar(c: char): char {
    if IsUpper(c) then (c as int + 32) as char else c
  }

  /** `s.lower()` restricted to ASCII letters. */
  function Lower(s: string): (r: string) {
    seq(|s|, i requires 0 <= i < |s| => LowerChar(s[i]))
  }

  /** `w` stands in `s` at position `i`. */
  predicate BlockAt(w: string, s: string, i: nat) {
    i + |w| <= |s| && s[i..i + |w|] == w
  }

  /** Python's `w in s`: `w` appears as a contiguous block of `s`. */
  predicate Occurs(w: string, s: string) {
    exists i | 0 <= i <= |s| - |w| :: BlockAt(w, s, i)
  }

  /** `any(w in s for w in words)`. */
  predicate OccursAny(words: seq<string>, s: string) {
    exists k | 0 <= k < |words| :: Occurs(words[k], s)
  }

  lemma OccursAt(w: string, s: string, i: nat)
    requires i + |w| <= |s| && s[i..i + |w|] == w
    ensures Occurs(w, s)
  {
    assert BlockAt(w, s, i);
  }

  /** Containment is transitive: a block of a block of `s` is a block of `s`. */
  lemma OccursTrans(u: string, w: string, s: string)
    requires Occurs(u, w) && Occurs(w, s)
    ensures Occurs(u, s)
  {
    var i :| 0 <= i <= |w| - |u| && BlockAt(u, w, i);
    var j :| 0 <= j <= |s| - |w| && BlockAt(w, s, j);
    forall k | 0 <= k < |u| ensures s[j + i + k] == u[k] {
      assert u[k] == w[i + k] == s[j + i + k];
    }
    assert s[j + i..j + i + |u|] == u;
    assert BlockAt(u, s, j + i);
  }

  lemma OccursInPrefix(w: string, a: string, b: string)
    requires Occurs(w, a)
    ensures Occurs(w, a + b)
  {
    var i :| 0 <= i <= |a| - |w| && BlockAt(w, a, i);
    assert (a + b)[i..i + |w|] == a[i..i + |w|];
    assert BlockAt(w, a + b, i);
  }

  lemma OccursInSuffix(w: string, a: string, b: string)
    requires Occurs(w, b)
    ensures Occurs(w, a + b)
  {
    var i :| 0 <= i <= |b| - |w| && BlockAt(w, b, i);
    assert (a + b)[|a| + i..|a| + i + |w|] == b[i..i + |w|];
    assert BlockAt(w, a + b, |a| + i);
  }

  /** A text missing one of the characters of `w` does not contain `w`. */
  lemma MissingChar(w: string, s: string, c: char)
    requires c in w && c !in s
    ensures !Occurs(w, s)
  {
    var j :| 0 <= j < |w| && w[j] == c;
    forall i | 0 <= i <= |s| - |w| ensures !BlockAt(w, s, i) {
      assert s[i..i + |w|][j] == s[i + j] && s[i + j] in s;
    }
  }

  /** Leading whitespace removed, as the first half of `str.strip()`. */
  function TrimStart(s: string): (r: string)
    ensures |r| <= |s| && r == s[|s| - |r|..]
    ensures forall i | 0 <= i < |s| - |r| :: IsSpace(s[i])
    ensures |r| > 0 ==> !IsSpace(r[0])
    decreases |s|
  {
    if |s| > 0 && IsSpace(s[0]) then TrimStart(s[1..]) else s
  }

  /** Trailing whitespace removed, as the second half of `str.strip()`. */
  function TrimEnd(s: string): (r: string)
    ensures |r| <= |s| && r == s[..|r|]
    ensures forall i | |r| <= i < |s| :: IsSpace(s[i])
    ensures |r| > 0 ==> !IsSpace(r[|r| - 1])
    decreases |s|
  {
    if |s| > 0 && IsSpace(s[|s| - 1]) then TrimEnd(s[..|s| - 1]) else s
  }

  /** `s.strip()`: the block of `s` left when the whitespace on both ends is
      removed; it neither starts nor ends with whitespace. */
  function Strip(s: string): (r: string)
    ensures exists a | 0 <= a <= |s| - |r| :: Framed(s, r, a)
    ensures |r| > 0 ==> !IsSpace(r[0]) && !IsSpace(r[|r| - 1])
  {
    var t := TrimStart(s);
    var r := TrimEnd(t);
    assert r == s[|s| - |t|..|s| - |t| + |r|];
    assert Framed(s, r, |s| - |t|);
    r
  }

  /** `r` stands in `s` at position `a` with only whitespace around it. */
  ghost predicate Framed(s: string, r: string, a: nat) {
    && a + |r| <= |s|
    && r == s[a..a + |r|]
    && (forall i | 0 <= i < a :: IsSpace(s[i]))
    && (forall i | a + |r| <= i < |s| :: IsSpace(s[i]))
  }

  /** `not s.strip()` holds exactly when every character of `s` is whitespace. */
  lemma StripBlank(s: string)
    ensures Strip(s) == "" <==> forall i | 0 <= i < |s| :: IsSpace(s[i])
  {
    var r := Strip(s);
    if r != "" {
      var a :| 0 <= a <= |s| - |r| && Framed(s, r, a);
      assert s[a] == r[0];
    }
  }

  /** Stripping twice is stripping once. */
  lemma StripIdempotent(s: string)
    ensures Strip(Strip(s)) == Strip(s)
  {
    var r := Strip(s);
    assert TrimStart(r) == r;
  }

  /** `sep.join(xs)`. */
  function Join(xs: seq<string>, sep: string): (r: string)
    decreases |xs|
  {
    if |xs| == 0 then ""
    else if |xs| == 1 then xs[0]
    else xs[0] + sep + Join(xs[1..], sep)
  }

  /** Every joined item appears in the joined text. */
  lemma {:induction false} JoinContainsEach(xs: seq<string>, sep: string, q: nat)
    requires q < |xs|
    ensures Occurs(xs[q], Join(xs, sep))
    decreases |xs|
  {
    if |xs| == 1 {
      OccursAt(xs[0], Join(xs, sep), 0);
    } else if q == 0 {
      OccursAt(xs[0], xs[0] + sep, 0);
      OccursInPrefix(xs[0], xs[0] + sep, Join(xs[1..], sep));
    } else {
      JoinContainsEach(xs[1..], sep, q - 1);
      OccursInSuffix(xs[q], xs[0] + sep, Join(xs[1..], sep));
    }
  }
}
