/** Types shared by every module: Go strings as byte sequences and their order. */
module Base {
  type byte = x: int | 0 <= x < 256
  /** A Go string: any bytes, compared byte by byte. */
  type Str = seq<byte>

  type UserId = Str
  type Token = Str
  type Code = Str
  type SuggestionId = Str
  /** Identity of a `*Client`, of a `*Room` and of a `*Session`. */
  type ConnId = nat
  type Ref = nat
  type SessionRef = nat
  /** A `time.Time`, in nanoseconds. */
  type Time = int

  const MILLI := 1_000_000 // a millisecond in nanoseconds

  datatype Option<+T> = None | Some(value: T)

  function Min(a: int, b: int): int { if a < b then a else b }

  function Max(a: int, b: int): int { if a < b then b else a }

  /** Go's `<` on strings. */
  predicate Less(a: Str, b: Str)
  {
    b != [] && (a == [] || a[0] < b[0] || (a[0] == b[0] && Less(a[1..], b[1..])))
  }

  lemma {:induction false} LessIrreflexive(a: Str)
    ensures !Less(a, a)
  {
    if a != [] { LessIrreflexive(a[1..]); }
  }

  lemma {:induction false} LessTransitive(a: Str, b: Str, c: Str)
    requires Less(a, b) && Less(b, c)
    ensures Less(a, c)
  {
    if a != [] && a[0] == b[0] && b[0] == c[0] {
      LessTransitive(a[1..], b[1..], c[1..]);
    }
  }

  lemma {:induction false} LessTotal(a: Str, b: Str)
    ensures a == b || Less(a, b) || Less(b, a)
  {
    if a != [] && b != [] && a[0] == b[0] {
      LessTotal(a[1..], b[1..]);
      assert a == [a[0]] + a[1..] && b == [b[0]] + b[1..];
    }
  }

  lemma LessAsymmetric(a: Str, b: Str)
    requires Less(a, b)
    ensures !Less(b, a) && a != b
  {
    LessIrreflexive(a);
    if Less(b, a) { LessTransitive(a, b, a); }
  }
}
