/**
 UTF-8 text as the server cleans it: `sanitizeString` and `validTrackID`.
 Well-formedness follows sections 3 and 4 of RFC 3629, which is what Go's
 unicode/utf8 accepts.
 */
module Text {
  import opened Base

  predicate Cont(b: byte) { 0x80 <= b <= 0xBF }

  predicate Lead3(a: byte, b: byte)
  {
    || (a == 0xE0 && 0xA0 <= b <= 0xBF)
    || (0xE1 <= a <= 0xEC && Cont(b))
    || (a == 0xED && 0x80 <= b <= 0x9F)
    || (0xEE <= a <= 0xEF && Cont(b))
  }

  predicate Lead4(a: byte, b: byte)
  {
    || (a == 0xF0 && 0x90 <= b <= 0xBF)
    || (0xF1 <= a <= 0xF3 && Cont(b))
    || (a == 0xF4 && 0x80 <= b <= 0x8F)
  }

  /** Bytes of the well-formed character at the front, 0 when there is none. */
  function Width(s: Str): (w: nat)
    ensures w <= 4 && w <= |s|
  {
    if s == [] then 0
    else if s[0] < 0x80 then 1
    else if |s| >= 2 && 0xC2 <= s[0] <= 0xDF && Cont(s[1]) then 2
    else if |s| >= 3 && Lead3(s[0], s[1]) && Cont(s[2]) then 3
    else if |s| >= 4 && Lead4(s[0], s[1]) && Cont(s[2]) && Cont(s[3]) then 4
    else 0
  }

  /** `utf8.ValidString`. */
  predicate ValidUtf8(s: Str)
    decreases |s|
  {
    s == [] || (Width(s) > 0 && ValidUtf8(s[Width(s)..]))
  }

  /** The control characters `sanitizeString` drops: everything below 32 but \t, \n and \r. */
  predicate Forbidden(b: byte) { b < 32 && b != 9 && b != 10 && b != 13 }

  predicate NoControls(s: Str) { forall i :: 0 <= i < |s| ==> !Forbidden(s[i]) }

  const REPLACEMENT: Str := [0xEF, 0xBF, 0xBD]

  /** The `strings.Map` pass: control characters go, and a byte that starts no
      character becomes U+FFFD. */
  function Mapped(s: Str): (r: Str)
    ensures ValidUtf8(r) && NoControls(r)
    decreases |s|
  {
    if s == [] then []
    else
      var w := Width(s);
      if w == 0 then
        var rest := Mapped(s[1..]);
        PrependChar(REPLACEMENT, rest);
        REPLACEMENT + rest
      else
        var rest := Mapped(s[w..]);
        if Forbidden(s[0]) then rest
        else
          CharIsChar(s);
          PrependChar(s[..w], rest);
          s[..w] + rest
  }

  lemma CharIsChar(s: Str)
    requires Width(s) > 0
    ensures Width(s[..Width(s)]) == Width(s)
    ensures Forbidden(s[0]) || NoControls(s[..Width(s)])
  {
  }

  /** Putting one whole character in front keeps a text well formed. */
  lemma PrependChar(c: Str, s: Str)
    requires c != [] && Width(c) == |c|
    ensures Width(c + s) == |c|
    ensures ValidUtf8(s) ==> ValidUtf8(c + s)
  {
    assert (c + s)[|c|..] == s;
    assert forall i :: 0 <= i < |c| ==> (c + s)[i] == c[i];
  }

  /** Bytes of the `unicode.IsSpace` character at the front, 0 when there is none. */
  function SpaceWidth(s: Str): (w: nat)
    ensures w <= |s| && (w > 0 ==> Width(s) == w)
  {
    if |s| >= 1 && (9 <= s[0] <= 13 || s[0] == 32) then 1
    else if |s| >= 2 && s[0] == 0xC2 && (s[1] == 0x85 || s[1] == 0xA0) then 2
    else if |s| >= 3 && (|| (s[0] == 0xE1 && s[1] == 0x9A && s[2] == 0x80)
                         || (s[0] == 0xE2 && s[1] == 0x80 && (0x80 <= s[2] <= 0x8A || s[2] == 0xA8 || s[2] == 0xA9 || s[2] == 0xAF))
                         || (s[0] == 0xE2 && s[1] == 0x81 && s[2] == 0x9F)
                         || (s[0] == 0xE3 && s[1] == 0x80 && s[2] == 0x80)) then 3
    else 0
  }

  predicate AllSpace(s: Str)
    decreases |s|
  {
    s == [] || (SpaceWidth(s) > 0 && AllSpace(s[SpaceWidth(s)..]))
  }

  function TrimLeft(s: Str): (r: Str)
    ensures |r| <= |s| && SpaceWidth(r) == 0
    ensures ValidUtf8(s) ==> ValidUtf8(r)
    ensures NoControls(s) ==> NoControls(r)
    decreases |s|
  {
    if SpaceWidth(s) > 0 then TrimLeft(s[SpaceWidth(s)..]) else s
  }

  /** Drops the whitespace at the end of a well-formed text. */
  function TrimRight(s: Str): (r: Str)
    requires ValidUtf8(s)
    ensures |r| <= |s| && r == s[..|r|]
    ensures ValidUtf8(r)
    ensures r == [] <==> AllSpace(s)
    decreases |s|
  {
    if AllSpace(s) then []
    else
      var w := Width(s);
      var rest := TrimRight(s[w..]);
      CharIsChar(s);
      PrependChar(s[..w], rest);
      assert s[..w] + s[w..][..|rest|] == s[..w + |rest|];
      s[..w] + rest
  }

  /** `strings.TrimSpace` on a well-formed text. */
  function TrimSpace(s: Str): (r: Str)
    requires ValidUtf8(s)
    ensures ValidUtf8(r) && |r| <= |s|
    ensures NoControls(s) ==> NoControls(r)
  {
    TrimRight(TrimLeft(s))
  }

  /** Where the cut search of `sanitizeString` ends when it tries i, i-1, ... */
  function CutFrom(s: Str, n: nat, i: nat): (cut: nat)
    requires i <= n <= |s|
    ensures cut <= n
  {
    if i == 0 || i + 4 <= n then n
    else if ValidUtf8(s[..i]) then i
    else CutFrom(s, n, i - 1)
  }

  /** `sanitizeString`: map, trim, cut. */
  function Sanitize(s: Str, n: nat): (r: Str)
    ensures |r| <= n
  {
    var t := TrimSpace(Mapped(s));
    if |t| > n then t[..CutFrom(t, n, n)] else t
  }

  method SanitizeString(s: Str, n: nat) returns (r: Str)
    ensures r == Sanitize(s, n)
  {
    // The ToValidUTF8 step never runs: the mapped text is always well formed.
    r := TrimSpace(Mapped(s));
    if |r| > n {
      var cut := n;
      var i := n;
      while i > 0 && i + 4 > n
        invariant 0 <= i <= n
        invariant cut == n
        invariant CutFrom(r, n, n) == CutFrom(r, n, i)
      {
        if ValidUtf8(r[..i]) {
          cut := i;
          break;
        }
        i := i - 1;
      }
      r := r[..cut];
    }
  }

  // ---- what the cut keeps ----

  /** Among any four neighbouring cut points of a well-formed text one is a boundary. */
  lemma {:induction false} BoundaryNear(s: Str, n: nat) returns (i: nat)
    requires ValidUtf8(s) && n <= |s|
    ensures i <= n && n < i + 4 && ValidUtf8(s[..i])
    decreases |s|
  {
    if s == [] || Width(s) > n {
      i := 0;
    } else {
      var w := Width(s);
      var j := BoundaryNear(s[w..], n - w);
      i := w + j;
      CharIsChar(s);
      PrependChar(s[..w], s[w..][..j]);
      assert s[..w] + s[w..][..j] == s[..i];
    }
  }

  lemma {:induction false} CutFromFinds(s: Str, n: nat, i: nat, b: nat)
    requires b <= i <= n <= |s| && 0 < b && n < b + 4
    requires ValidUtf8(s[..b])
    ensures ValidUtf8(s[..CutFrom(s, n, i)])
    ensures b <= CutFrom(s, n, i) <= i
    ensures forall j :: CutFrom(s, n, i) < j <= i ==> !ValidUtf8(s[..j])
  {
    if !ValidUtf8(s[..i]) {
      CutFromFinds(s, n, i - 1, b);
    }
  }

  /** For every limit the server uses the result is well-formed UTF-8 within
      the limit, free of forbidden control characters, and the longest such
      prefix of the cleaned text. */
  lemma SanitizeOutput(s: Str, n: nat)
    requires n >= 4
    ensures var t := TrimSpace(Mapped(s)); var r := Sanitize(s, n);
            && ValidUtf8(r) && |r| <= n && NoControls(r)
            && r <= t
            && (forall j :: |r| < j <= n && j <= |t| ==> !ValidUtf8(t[..j]))
  {
    var t := TrimSpace(Mapped(s));
    if |t| > n {
      var b := BoundaryNear(t, n);
      CutFromFinds(t, n, n, b);
      var cut := CutFrom(t, n, n);
      assert forall i :: 0 <= i < cut ==> t[..cut][i] == t[i];
    } else {
      assert t <= t;
    }
  }

  // ---- cleaning what is already clean ----

  /** What `sanitizeString` with limit n leaves behind. */
  predicate Clean(s: Str, n: nat)
  {
    ValidUtf8(s) && NoControls(s) && |s| <= n && SpaceWidth(s) == 0
  }

  lemma {:induction false} MappedIdentity(s: Str)
    requires ValidUtf8(s) && NoControls(s)
    ensures Mapped(s) == s
    decreases |s|
  {
    if s != [] {
      MappedIdentity(s[Width(s)..]);
      assert s == s[..Width(s)] + s[Width(s)..];
    }
  }

  lemma SanitizeIsClean(s: Str, n: nat)
    requires n >= 4
    ensures Clean(Sanitize(s, n), n)
  {
    SanitizeOutput(s, n);
    var t := TrimLeft(Mapped(s));
    var r := Sanitize(s, n);
    assert r <= t;
    assert forall i :: 0 <= i < |r| ==> r[i] == t[i];
  }

  /** Cleaning a clean text again only strips trailing whitespace: it never
      lengthens the text and never empties it. */
  lemma ResanitizeShrinks(s: Str, n: nat)
    requires Clean(s, n)
    ensures Sanitize(s, n) == TrimRight(s) && Sanitize(s, n) <= s
    ensures Sanitize(s, n) == [] <==> s == []
    ensures n >= 4 ==> Clean(Sanitize(s, n), n)
  {
    MappedIdentity(s);
    if n >= 4 { SanitizeIsClean(s, n); }
  }

  /** s is some well-formed text followed by one whitespace character. */
  ghost predicate EndsInSpace(s: Str)
  {
    exists k :: 0 <= k < |s| && SpaceTail(s, k)
  }

  predicate SpaceTail(s: Str, k: nat)
    requires k < |s|
  {
    ValidUtf8(s[..k]) && SpaceWidth(s[k..]) == |s| - k
  }

  lemma {:induction false} AllSpaceEndsInSpace(s: Str)
    requires s != [] && AllSpace(s) && ValidUtf8(s)
    ensures EndsInSpace(s)
    decreases |s|
  {
    var w := SpaceWidth(s);
    if w == |s| {
      assert s[..0] == [] && s[0..] == s;
      assert SpaceTail(s, 0);
    } else {
      AllSpaceEndsInSpace(s[w..]);
      ShiftSpaceTail(s);
    }
  }

  lemma ShiftSpaceTail(s: Str)
    requires ValidUtf8(s) && s != [] && EndsInSpace(s[Width(s)..])
    ensures EndsInSpace(s)
  {
    var w := Width(s);
    var k :| 0 <= k < |s[w..]| && SpaceTail(s[w..], k);
    CharIsChar(s);
    PrependChar(s[..w], s[w..][..k]);
    assert s[..w] + s[w..][..k] == s[..w + k];
    assert s[w..][k..] == s[w + k..];
    assert SpaceTail(s, w + k);
  }

  lemma {:induction false} SpaceTailTrims(s: Str, k: nat)
    requires ValidUtf8(s) && k < |s| && SpaceTail(s, k)
    ensures TrimRight(s) != s
    decreases |s|
  {
    assert k == 0 ==> AllSpace(s) by { assert s[0..] == s && s[|s|..] == []; }
    if !AllSpace(s) {
      var w := Width(s);
      assert s[..k] != [] && Width(s[..k]) == w by { FrontWidth(s, k); }
      assert s[..k][w..] == s[w..][..k - w];
      assert s[w..][k - w..] == s[k..];
      SpaceTailTrims(s[w..], k - w);
    }
  }

  /** A well-formed non-empty prefix starts with the same character. */
  lemma FrontWidth(s: Str, k: nat)
    requires ValidUtf8(s) && 0 < k <= |s| && ValidUtf8(s[..k])
    ensures Width(s[..k]) == Width(s) <= k
  {
    var p := s[..k];
    assert forall i :: 0 <= i < k ==> p[i] == s[i];
  }

  lemma {:induction false} TrimRightKeeps(s: Str)
    requires ValidUtf8(s) && !EndsInSpace(s)
    ensures TrimRight(s) == s
    decreases |s|
  {
    hide EndsInSpace, SpaceWidth, Width;
    if s != [] {
      if AllSpace(s) { AllSpaceEndsInSpace(s); }
      if EndsInSpace(s[Width(s)..]) { ShiftSpaceTail(s); }
      TrimRightKeeps(s[Width(s)..]);
      assert s == s[..Width(s)] + s[Width(s)..];
    }
  }

  lemma {:induction false} TrimRightTwice(s: Str)
    requires ValidUtf8(s)
    ensures TrimRight(TrimRight(s)) == TrimRight(s)
    decreases |s|
  {
    if !AllSpace(s) {
      var w := Width(s);
      var rest := TrimRight(s[w..]);
      var r := TrimRight(s);
      TrimRightTwice(s[w..]);
      CharIsChar(s);
      PrependChar(s[..w], rest);
      assert r == s[..w] + rest && r[w..] == rest && r[..w] == s[..w];
      assert !AllSpace(r) by { FrontSpace(s, rest); }
    }
  }

  /** One character in front of a text that does not end in whitespace. */
  lemma FrontSpace(s: Str, rest: Str)
    requires s != [] && ValidUtf8(s) && !AllSpace(s) && ValidUtf8(rest)
             && TrimRight(rest) == rest == TrimRight(s[Width(s)..])
    ensures !AllSpace(s[..Width(s)] + rest)
  {
    var w := Width(s);
    var r := s[..w] + rest;
    CharIsChar(s);
    PrependChar(s[..w], rest);
    assert r[w..] == rest;
    assert forall i :: 0 <= i < w ==> r[i] == s[i];
  }

  /** `sanitizeString` trims before it cuts, so a second pass is the identity
      exactly when nothing is cut or the cut does not follow a whitespace character. */
  lemma ResanitizeIdentity(s: Str, n: nat)
    requires n >= 4
    ensures var t := TrimSpace(Mapped(s));
            Sanitize(Sanitize(s, n), n) == Sanitize(s, n) <==> |t| <= n || !EndsInSpace(t[..CutFrom(t, n, n)])
  {
    var r := Sanitize(s, n);
    SanitizeIsClean(s, n);
    ResanitizeShrinks(r, n);
    if |TrimSpace(Mapped(s))| <= n {
      TrimRightTwice(TrimLeft(Mapped(s)));
    } else if EndsInSpace(r) {
      var k :| 0 <= k < |r| && SpaceTail(r, k);
      SpaceTailTrims(r, k);
    } else {
      TrimRightKeeps(r);
    }
  }

  lemma CleanedIsItself(s: Str)
    requires ValidUtf8(s) && NoControls(s) && SpaceWidth(s) == 0 && !EndsInSpace(s)
    ensures TrimSpace(Mapped(s)) == s
  {
    MappedIdentity(s);
    TrimRightKeeps(s);
  }

  lemma VisibleEnd(s: Str)
    requires s != [] && 33 <= s[|s| - 1] <= 126 && forall i :: 0 <= i < |s| ==> s[i] < 0x80
    ensures !EndsInSpace(s)
  {
    forall k | 0 <= k < |s| ensures !SpaceTail(s, k) {
      assert forall i :: 0 <= i < |s| - k ==> s[k..][i] == s[k + i];
    }
  }

  /** Any visible ASCII word filling the limit but for one byte, followed by a
      blank and another letter, is cut after the blank; a second pass drops it. */
  lemma SanitizeNotIdempotent(word: Str, x: byte, n: nat)
    requires n == |word| + 1 >= 4
    requires 33 <= x <= 126 && forall i :: 0 <= i < |word| ==> 33 <= word[i] <= 126
    ensures Sanitize(word + [32, x], n) == word + [32]
    ensures Sanitize(word + [32], n) != word + [32]
  {
    hide Sanitize, EndsInSpace, TrimSpace, Mapped, CutFrom;
    var s := word + [32, x];
    CutAfterBlank(word, x, n);
    BlankEnd(word);
    ResanitizeIdentity(s, n);
  }

  lemma CutAfterBlank(word: Str, x: byte, n: nat)
    requires n == |word| + 1 >= 4
    requires 33 <= x <= 126 && forall i :: 0 <= i < |word| ==> 33 <= word[i] <= 126
    ensures var s := word + [32, x];
            TrimSpace(Mapped(s)) == s && CutFrom(s, n, n) == n && s[..n] == word + [32] && Sanitize(s, n) == word + [32]
  {
    hide TrimSpace, Mapped, Width, SpaceWidth, EndsInSpace;
    var s := word + [32, x];
    assert s[..n] == word + [32];
    AsciiValid(s);
    AsciiValid(word + [32]);
    VisibleEnd(s);
    assert SpaceWidth(s) == 0 by { VisibleFront(s); }
    CleanedIsItself(s);
  }

  lemma VisibleFront(s: Str)
    requires s != [] && 33 <= s[0] <= 126
    ensures SpaceWidth(s) == 0
  {
  }

  lemma BlankEnd(word: Str)
    requires forall i :: 0 <= i < |word| ==> word[i] < 0x80
    ensures EndsInSpace(word + [32])
  {
    var t, k := word + [32], |word|;
    AsciiValid(word);
    assert t[..k] == word && t[k..] == [32];
    assert SpaceTail(t, k);
  }

  lemma {:induction false} AsciiValid(s: Str)
    requires forall i :: 0 <= i < |s| ==> s[i] < 0x80
    ensures ValidUtf8(s)
  {
    if s != [] { AsciiValid(s[1..]); }
  }


  // ---- what the passes do ----

  /** The bytes that are not forbidden control characters. */
  function Allowed(s: Str): Str
  {
    if s == [] then [] else (if Forbidden(s[0]) then [] else [s[0]]) + Allowed(s[1..])
  }

  lemma {:induction false} AllowedAppend(a: Str, b: Str)
    ensures Allowed(a + b) == Allowed(a) + Allowed(b)
  {
    if a == [] {
      assert a + b == b;
    } else {
      assert (a + b)[1..] == a[1..] + b;
      AllowedAppend(a[1..], b);
    }
  }

  lemma {:induction false} AllowedAll(s: Str)
    requires NoControls(s)
    ensures Allowed(s) == s
  {
    if s != [] { AllowedAll(s[1..]); }
  }

  /** From well-formed text the mapping drops the forbidden bytes and nothing else. */
  lemma {:induction false} MappedFilters(s: Str)
    requires ValidUtf8(s)
    ensures Mapped(s) == Allowed(s)
    decreases |s|
  {
    if s != [] {
      var w := Width(s);
      MappedFilters(s[w..]);
      assert s == s[..w] + s[w..];
      AllowedAppend(s[..w], s[w..]);
      CharIsChar(s);
      if Forbidden(s[0]) {
        assert s[..w] == [s[0]];
      } else {
        AllowedAll(s[..w]);
      }
    }
  }

  lemma MappedFirst(s: Str)
    requires s != []
    ensures Width(s) == 0 ==> Mapped(s) == [0xEF, 0xBF, 0xBD] + Mapped(s[1..])
    ensures Width(s) > 0 ==> Mapped(s) == (if Forbidden(s[0]) then [] else s[..Width(s)]) + Mapped(s[Width(s)..])
  {
    hide Width;
  }

  /** A byte that starts no character becomes U+FFFD, and the rest is mapped anew. */
  lemma {:induction false} MappedReplaces(a: Str, b: Str)
    requires ValidUtf8(a) && b != [] && Width(b) == 0
    ensures Mapped(a + b) == Mapped(a) + [0xEF, 0xBF, 0xBD] + Mapped(b[1..])
    decreases |a|
  {
    hide Width, Mapped, Forbidden;
    if a == [] {
      assert a + b == b;
      MappedFirst(b);
      assert Mapped([]) == [] by { NothingMapped(); }
    } else {
      var w := Width(a);
      CharIsChar(a);
      PrependChar(a[..w], a[w..] + b);
      assert a + b == a[..w] + (a[w..] + b);
      assert (a + b)[w..] == a[w..] + b && (a + b)[..w] == a[..w] && (a + b)[0] == a[0];
      MappedFirst(a);
      MappedFirst(a + b);
      MappedReplaces(a[w..], b);
    }
  }

  lemma NothingMapped()
    ensures Mapped([]) == []
  {
  }

  lemma {:induction false} TrimLeftSplits(s: Str) returns (i: nat)
    ensures i <= |s| && TrimLeft(s) == s[i..] && AllSpace(s[..i])
    decreases |s|
  {
    var w := SpaceWidth(s);
    if w > 0 {
      var j := TrimLeftSplits(s[w..]);
      i := w + j;
      assert s[w..][j..] == s[i..];
      SpaceInFront(s, i);
      assert s[..i][w..] == s[w..][..j];
    } else {
      i := 0;
      assert s[0..] == s;
    }
  }

  lemma SpaceInFront(s: Str, i: nat)
    requires 0 < SpaceWidth(s) <= i <= |s|
    ensures SpaceWidth(s[..i]) == SpaceWidth(s)
  {
    assert forall k :: 0 <= k < i ==> s[..i][k] == s[k];
  }

  lemma {:induction false} TrimRightSplits(s: Str)
    requires ValidUtf8(s)
    ensures AllSpace(s[|TrimRight(s)|..])
    decreases |s|
  {
    if AllSpace(s) {
      assert s[0..] == s;
    } else {
      var w := Width(s);
      TrimRightSplits(s[w..]);
      var n := |TrimRight(s[w..])|;
      assert s[w..][n..] == s[w + n..];
    }
  }

  /** Trimming takes whitespace from both ends and leaves none there. */
  lemma TrimSplits(s: Str) returns (i: nat, j: nat)
    requires ValidUtf8(s)
    ensures i <= j <= |s| && TrimSpace(s) == s[i..j] && AllSpace(s[..i]) && AllSpace(s[j..])
    ensures SpaceWidth(TrimSpace(s)) == 0 && !EndsInSpace(TrimSpace(s))
  {
    hide SpaceWidth, Width, AllSpace;
    i := TrimLeftSplits(s);
    var t := TrimLeft(s);
    var r := TrimRight(t);
    j := i + |r|;
    assert t == s[i..] && s[i..][..|r|] == s[i..j] && s[i..][|r|..] == s[j..];
    TrimRightSplits(t);
    TrimmedFront(t, r);
    TrimRightTwice(t);
    if EndsInSpace(r) {
      var k :| 0 <= k < |r| && SpaceTail(r, k);
      SpaceTailTrims(r, k);
    }
  }

  /** A prefix of a text that starts with no whitespace starts with none. */
  lemma TrimmedFront(t: Str, r: Str)
    requires SpaceWidth(t) == 0 && r <= t
    ensures SpaceWidth(r) == 0
  {
    assert forall i :: 0 <= i < |r| ==> r[i] == t[i];
  }

  // ---- track identifiers ----

  const MAX_TRACK_ID := 200

  /** `validTrackID`. On well-formed text the rune test reads the same on bytes. */
  predicate ValidTrackId(id: Str)
  {
    && id != [] && |id| <= MAX_TRACK_ID && ValidUtf8(id)
    && forall i :: 0 <= i < |id| ==> id[i] >= 32 && id[i] != 127
  }
}
