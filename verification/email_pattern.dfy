/** The address pattern of `extract_email_intent`,
      \b[A-Za-z0-9._%+-]+@[A-Za-z0-9.-]+\.[A-Z|a-z]{2,}\b
    and `re.findall` over it. `IsHit` says declaratively what a match is and
    `Preferred` which of the matches at one position the backtracking engine
    reports; `MatchAt` is the engine's search at one position and `Scan` the
    left-to-right findall loop, both proved against those two predicates. */
module EmailPattern {
  import opened Options
  import opened Text

  /** The three character classes of the pattern. The top-level class is
      `[A-Z|a-z]` as written, so it admits the character '|'. */
  datatype CharClass = LocalPart | DomainPart | TopLevel

  predicate IsAsciiLetter(c: char) { 'A' <= c <= 'Z' || 'a' <= c <= 'z' }

  predicate IsAsciiDigit(c: char) { '0' <= c <= '9' }

  predicate InClass(c: char, cls: CharClass) {
    match cls
    case LocalPart =>
      IsAsciiLetter(c) || IsAsciiDigit(c) || c == '.' || c == '_' || c == '%' || c == '+' || c == '-'
    case DomainPart => IsAsciiLetter(c) || IsAsciiDigit(c) || c == '.' || c == '-'
    case TopLevel => IsAsciiLetter(c) || c == '|'
  }

  /** A character of `\w` (ASCII letters, digits and '_'). */
  predicate IsWordChar(c: char) { IsAsciiLetter(c) || IsAsciiDigit(c) || c == '_' }

  /** `\b` at position `p`: exactly one of the characters either side is a word character. */
  predicate Boundary(s: string, p: nat)
    requires p <= |s|
  {
    (p > 0 && IsWordChar(s[p - 1])) != (p < |s| && IsWordChar(s[p]))
  }

  predicate AllIn(s: string, lo: nat, hi: nat, cls: CharClass)
    requires lo <= hi <= |s|
  {
    forall q | lo <= q < hi :: InClass(s[q], cls)
  }

  /** A match `s[start..end]`, with its '@' at `at` and the '.' that opens
      the top-level part at `dot`. */
  datatype Hit = Hit(start: nat, at: nat, dot: nat, end: nat)

  /** `\.[A-Z|a-z]{2,}\b` matched at `dot..end`, after a non-empty domain
      that follows the '@' at `at`. */
  predicate IsTail(s: string, at: nat, dot: nat, end: nat) {
    && at + 2 <= dot
    && dot + 3 <= end <= |s|
    && s[dot] == '.'
    && AllIn(s, dot + 1, end, TopLevel)
    && Boundary(s, end)
  }

  /** `h` is a match of the whole pattern. */
  predicate IsHit(s: string, h: Hit) {
    && h.start < h.at < h.dot < h.end <= |s|
    && Boundary(s, h.start)
    && AllIn(s, h.start, h.at, LocalPart)
    && s[h.at] == '@'
    && AllIn(s, h.at + 1, h.dot, DomainPart)
    && IsTail(s, h.at, h.dot, h.end)
  }

  /** Of the matches that start where `h` does, `h` is the one the greedy
      quantifiers reach first: the longest domain, then the longest top-level part. */
  ghost predicate Preferred(s: string, h: Hit) {
    forall h' | IsHit(s, h') && h'.start == h.start ::
      h'.dot < h.dot || (h'.dot == h.dot && h'.end <= h.end)
  }

  /** End of the longest run of `cls` characters from `p`: what a greedy `[...]+` consumes. */
  function RunEnd(s: string, p: nat, cls: CharClass): (e: nat)
    requires p <= |s|
    ensures p <= e <= |s| && AllIn(s, p, e, cls)
    ensures e < |s| ==> !InClass(s[e], cls)
    ensures forall e' | p <= e' <= |s| && AllIn(s, p, e', cls) :: e' <= e
    decreases |s| - p
  {
    if p < |s| && InClass(s[p], cls) then RunEnd(s, p + 1, cls) else p
  }

  /** `[A-Z|a-z]{2,}\b` after the '.' at `dot`, giving back one character at a
      time from the greedy end `m`. */
  function TryTopLevel(s: string, dot: nat, m: nat): (r: Option<nat>)
    requires dot < m <= |s|
    ensures r.Some? ==> dot + 3 <= r.value <= m && Boundary(s, r.value)
    ensures forall e | dot + 3 <= e <= m && Boundary(s, e) :: r.Some? && e <= r.value
    decreases m
  {
    if m < dot + 3 then None
    else if Boundary(s, m) then Some(m)
    else TryTopLevel(s, dot, m - 1)
  }

  /** `[A-Za-z0-9.-]+` after the '@' at `at` followed by the tail, giving back
      one domain character at a time from `k`: the first (dot, end) found. */
  function TryDomain(s: string, at: nat, k: nat): (r: Option<(nat, nat)>)
    requires k <= |s|
    ensures r.Some? ==> r.value.0 <= k && IsTail(s, at, r.value.0, r.value.1)
    ensures forall d: nat, e: nat | d <= k && IsTail(s, at, d, e) ::
      r.Some? && (d < r.value.0 || (d == r.value.0 && e <= r.value.1))
    decreases k
  {
    if k < at + 2 then None
    else
      var t := if k < |s| && s[k] == '.' then TryTopLevel(s, k, RunEnd(s, k + 1, TopLevel)) else None;
      if t.Some? then Some((k, t.value)) else TryDomain(s, at, k - 1)
  }

  /** The regular-expression engine's attempt at position `i`: the match it
      reports there, or none when no match starts at `i`. */
  function MatchAt(s: string, i: nat): (r: Option<Hit>)
    requires i <= |s|
    ensures r.Some? ==> r.value.start == i && IsHit(s, r.value) && Preferred(s, r.value)
    ensures r.None? ==> forall h | IsHit(s, h) :: h.start != i
  {
    if !Boundary(s, i) then None
    else
      var at := RunEnd(s, i, LocalPart);
      if at == i || at == |s| || s[at] != '@' then None
      else
        var t := TryDomain(s, at, RunEnd(s, at + 1, DomainPart));
        MatchAtFacts(s, i, at, t);
        if t.None? then None else Some(Hit(i, at, t.value.0, t.value.1))
  }

  /** Every match at `i` has its '@' where the greedy local part stops, and
      its '.' inside the greedy domain run. */
  lemma MatchAtFacts(s: string, i: nat, at: nat, t: Option<(nat, nat)>)
    requires i < at < |s| && at == RunEnd(s, i, LocalPart) && s[at] == '@'
    requires t == TryDomain(s, at, RunEnd(s, at + 1, DomainPart))
    ensures forall h | IsHit(s, h) && h.start == i ::
      h.at == at && t.Some? && (h.dot < t.value.0 || (h.dot == t.value.0 && h.end <= t.value.1))
  {
    var k := RunEnd(s, at + 1, DomainPart);
    forall h | IsHit(s, h) && h.start == i
      ensures h.at == at && t.Some? && (h.dot < t.value.0 || (h.dot == t.value.0 && h.end <= t.value.1))
    {
      assert h.at <= at;
      assert h.dot <= k;
      assert IsTail(s, at, h.dot, h.end);
    }
  }

  /** `re.findall` from position `p`: try a match at `p`; after a match go on
      at its end, otherwise at the next position. */
  function Scan(s: string, p: nat): (hits: seq<Hit>)
    requires p <= |s|
    ensures forall q | 0 <= q < |hits| :: p <= hits[q].start < hits[q].end <= |s|
    ensures forall q | 0 <= q < |hits| - 1 :: hits[q].end <= hits[q + 1].start
    decreases |s| - p
  {
    if p == |s| then []
    else
      match MatchAt(s, p)
      case Some(h) => [h] + Scan(s, h.end)
      case None => Scan(s, p + 1)
  }

  /** Every reported match is a match of the pattern, and the one the engine
      prefers at its start. */
  lemma {:induction false} ScanSound(s: string, p: nat)
    requires p <= |s|
    ensures forall q | 0 <= q < |Scan(s, p)| :: IsHit(s, Scan(s, p)[q]) && Preferred(s, Scan(s, p)[q])
    decreases |s| - p
  {
    if p < |s| {
      match MatchAt(s, p)
      case Some(h) =>
        ScanSound(s, h.end);
        assert Scan(s, p) == [h] + Scan(s, h.end);
      case None =>
        ScanSound(s, p + 1);
    }
  }

  /** No match is skipped: every position from `p` on where a match could
      start lies inside one of the matches the scan reports. */
  lemma {:induction false} ScanComplete(s: string, p: nat, h: Hit)
    requires p <= |s| && IsHit(s, h) && p <= h.start
    ensures exists q | 0 <= q < |Scan(s, p)| :: Scan(s, p)[q].start <= h.start < Scan(s, p)[q].end
    decreases |s| - p
  {
    var hits := Scan(s, p);
    match MatchAt(s, p)
    case Some(h0) =>
      assert hits == [h0] + Scan(s, h0.end);
      if h.start < h0.end {
        assert hits[0].start <= h.start < hits[0].end;
      } else {
        ScanComplete(s, h0.end, h);
        var q :| 0 <= q < |Scan(s, h0.end)| && Scan(s, h0.end)[q].start <= h.start < Scan(s, h0.end)[q].end;
        assert hits[q + 1] == Scan(s, h0.end)[q];
      }
    case None =>
      assert h.start != p;
      ScanComplete(s, p + 1, h);
  }

  /** Positions where no match starts are passed over. */
  lemma {:induction false} ScanSkip(s: string, p: nat, p': nat)
    requires p <= p' <= |s|
    requires forall h | IsHit(s, h) :: h.start < p || p' <= h.start
    ensures Scan(s, p) == Scan(s, p')
    decreases p' - p
  {
    if p < p' {
      assert MatchAt(s, p).None?;
      ScanSkip(s, p + 1, p');
    }
  }

  /** Text without an '@' holds no match. */
  lemma {:induction false} ScanNoAt(s: string, p: nat)
    requires p <= |s|
    requires forall x | p <= x < |s| :: s[x] != '@'
    ensures Scan(s, p) == []
    decreases |s| - p
  {
    if p < |s| {
      assert MatchAt(s, p).None?;
      ScanNoAt(s, p + 1);
    }
  }

  /** The addresses `re.findall` returns, in order, duplicates kept. */
  function FindEmails(s: string): (r: seq<string>)
    ensures forall q | 0 <= q < |r| :: Occurs(r[q], s) && AddressShaped(r[q])
  {
    var hits := Scan(s, 0);
    ScanSound(s, 0);
    forall q | 0 <= q < |hits| ensures Occurs(s[hits[q].start..hits[q].end], s) && AddressShaped(s[hits[q].start..hits[q].end]) {
      OccursAt(s[hits[q].start..hits[q].end], s, hits[q].start);
      HitShape(s, hits[q]);
    }
    seq(|hits|, q requires 0 <= q < |hits| => s[hits[q].start..hits[q].end])
  }

  /** The shape of an address: exactly one '@', at least one character before
      it, and a last component after the final '.' of two or more characters
      of `[A-Z|a-z]`. */
  ghost predicate AddressShaped(e: string) {
    exists a, d | 0 < a && a + 1 < d && d + 3 <= |e| ::
      && e[a] == '@' && e[d] == '.'
      && (forall b | 0 <= b < |e| && b != a :: e[b] != '@')
      && (forall b | d < b < |e| :: e[b] != '.' && InClass(e[b], TopLevel))
  }

  lemma HitShape(s: string, h: Hit)
    requires IsHit(s, h)
    ensures AddressShaped(s[h.start..h.end])
  {
    var e := s[h.start..h.end];
    var a, d := h.at - h.start, h.dot - h.start;
    forall b | 0 <= b < |e| && b != a ensures e[b] != '@' {
      if b < a {
        assert InClass(s[h.start + b], LocalPart);
      } else if b < d {
        assert InClass(s[h.start + b], DomainPart);
      } else if b > d {
        assert InClass(s[h.start + b], TopLevel);
      }
    }
    forall b | d < b < |e| ensures e[b] != '.' && InClass(e[b], TopLevel) {
      assert InClass(s[h.start + b], TopLevel);
    }
    assert e[a] == '@' && e[d] == '.';
  }

  /** Each address found is a block of the text and has the address shape. */
  lemma EmailShape(s: string, q: nat)
    requires q < |FindEmails(s)|
    ensures Occurs(FindEmails(s)[q], s)
    ensures AddressShaped(FindEmails(s)[q])
  {
    ScanSound(s, 0);
    var h := Scan(s, 0)[q];
    assert FindEmails(s)[q] == s[h.start..h.end];
    OccursAt(FindEmails(s)[q], s, h.start);
    HitShape(s, h);
  }

  /** Every position where some match starts is covered by one of the
      matches behind the returned addresses. */
  lemma FindEmailsComplete(s: string, h: Hit)
    requires IsHit(s, h)
    ensures exists q | 0 <= q < |FindEmails(s)| :: Scan(s, 0)[q].start <= h.start < Scan(s, 0)[q].end
  {
    ScanComplete(s, 0, h);
  }

  /** The class `[A-Z|a-z]` admits '|', so a top-level part made of '|' and
      a letter is accepted: "a@b.|c" is found as an address. */
  lemma PipeInTopLevel()
    ensures FindEmails("a@b.|c") == ["a@b.|c"]
  {
    var s := "a@b.|c";
    var h := Hit(0, 1, 3, 6);
    assert AllIn(s, 4, 6, TopLevel) by {
      assert InClass(s[4], TopLevel) && InClass(s[5], TopLevel);
    }
    assert IsHit(s, h);
    var m := MatchAt(s, 0);
    assert m.Some?;
    assert s[2] != '@';
    assert m.value == h;
    assert Scan(s, 0) == [h] + Scan(s, 6);
    assert s[0..6] == s;
  }
}
