/** Strings as the source's own string methods see them: trimming, splitting and joining. */
module Text {

  datatype Result<+T, +E> = Ok(value: T) | Refused(error: E)

  datatype Option<+T> = None | Some(value: T)

  /** The characters `String.prototype.trim` removes. */
  predicate IsSpace(c: char) {
    c == ' ' || c == '\t' || c == '\n' || c == '\r' || c == '\U{000B}' || c == '\U{000C}' || c == '\U{00A0}' || c == '\U{1680}' ||
    '\U{2000}' <= c <= '\U{200A}' || c == '\U{2028}' || c == '\U{2029}' || c == '\U{202F}' ||
    c == '\U{205F}' || c == '\U{3000}' || c == '\U{FEFF}'
  }

  function TrimStart(s: string): (r: string)
    ensures |r| <= |s| && r == s[|s| - |r|..]
    ensures r != [] ==> !IsSpace(r[0])
    ensures forall i :: 0 <= i < |s| - |r| ==> IsSpace(s[i])
  {
    if s != [] && IsSpace(s[0]) then TrimStart(s[1..]) else s
  }

  function TrimEnd(s: string): (r: string)
    ensures |r| <= |s| && r == s[..|r|]
    ensures r != [] ==> !IsSpace(r[|r| - 1])
    ensures forall i :: |r| <= i < |s| ==> IsSpace(s[i])
  {
    if s != [] && IsSpace(s[|s| - 1]) then TrimEnd(s[..|s| - 1]) else s
  }

  function Trim(s: string): string {
    TrimEnd(TrimStart(s))
  }

  /** A string neither end of which is a space is its own trimming. */
  lemma TrimNothing(s: string)
    requires s != [] ==> !IsSpace(s[0]) && !IsSpace(s[|s| - 1])
    ensures Trim(s) == s
  {
  }

  /** `s.split(...)` at every character of `at`; never empty, and no piece holds a separator. */
  function SplitAny(s: string, at: set<char>): (parts: seq<string>)
    ensures |parts| > 0
    ensures forall p, c | p in parts && c in p :: c !in at
  {
    if s == [] then [""]
    else
      var rest := SplitAny(s[1..], at);
      if s[0] in at then [""] + rest else [[s[0]] + rest[0]] + rest[1..]
  }

  function Split(s: string, at: char): (parts: seq<string>)
    ensures |parts| > 0
    ensures forall p | p in parts :: at !in p
  {
    SplitAny(s, {at})
  }

  function Join(parts: seq<string>, glue: string): string {
    if parts == [] then ""
    else if |parts| == 1 then parts[0]
    else parts[0] + glue + Join(parts[1..], glue)
  }

  /** A piece free of the finer separators survives splitting at more of them. */
  lemma FinerSplitKeeps(s: string, at: set<char>, finer: set<char>, piece: string)
    requires at <= finer
    requires piece in SplitAny(s, at)
    requires forall c | c in piece :: c !in finer
    ensures piece in SplitAny(s, finer)
  {
    if s != [] {
      var rest := SplitAny(s[1..], at);
      var fine := SplitAny(s[1..], finer);
      if s[0] in at {
        if piece in rest { FinerSplitKeeps(s[1..], at, finer, piece); }
      } else if piece in rest[1..] {
        FinerSplitKeepsTail(s[1..], at, finer, piece);
      } else {
        assert piece == [s[0]] + rest[0];
        assert s[0] in piece;
        FirstPieceFree(s[1..], at, finer);
      }
    }
  }

  lemma FirstPieceFree(s: string, at: set<char>, finer: set<char>)
    requires at <= finer
    requires forall c | c in SplitAny(s, at)[0] :: c !in finer
    ensures SplitAny(s, finer)[0] == SplitAny(s, at)[0]
  {
    if s != [] && s[0] !in at {
      var rest := SplitAny(s[1..], at);
      assert s[0] in [s[0]] + rest[0];
      assert forall c | c in rest[0] :: c in [s[0]] + rest[0];
      FirstPieceFree(s[1..], at, finer);
    }
  }

  lemma FinerSplitKeepsTail(s: string, at: set<char>, finer: set<char>, piece: string)
    requires at <= finer
    requires piece in SplitAny(s, at)[1..]
    requires forall c | c in piece :: c !in finer
    ensures piece in SplitAny(s, finer)[1..]
  {
    if s != [] {
      var rest := SplitAny(s[1..], at);
      if s[0] in at {
        FinerSplitKeeps(s[1..], at, finer, piece);
      } else {
        FinerSplitKeepsTail(s[1..], at, finer, piece);
      }
    }
  }

  /** Separators that do not occur split nothing. */
  lemma {:induction false} AbsentSeparators(s: string, at: set<char>, finer: set<char>)
    requires forall c | c in s :: c in at <==> c in finer
    ensures SplitAny(s, at) == SplitAny(s, finer)
  {
    if s != [] {
      assert s[0] in s;
      AbsentSeparators(s[1..], at, finer);
    }
  }

  /** Splitting undoes joining. */
  lemma {:induction false} JoinSplits(parts: seq<string>, at: char)
    requires |parts| > 0 && forall p | p in parts :: at !in p
    ensures Split(Join(parts, [at]), at) == parts
    decreases |parts|
  {
    var rest := if |parts| == 1 then "" else [at] + Join(parts[1..], [at]);
    assert Join(parts, [at]) == parts[0] + rest;
    if |parts| > 1 {
      JoinSplits(parts[1..], at);
      assert rest[1..] == Join(parts[1..], [at]);
      assert SplitAny(rest, {at}) == [""] + parts[1..];
    }
    SplitAfterPiece(parts[0], rest, at);
    assert parts == [parts[0]] + parts[1..];
  }

  lemma {:induction false} SplitAfterPiece(piece: string, rest: string, at: char)
    requires at !in piece && SplitAny(rest, {at})[0] == ""
    ensures SplitAny(piece + rest, {at}) == [piece] + SplitAny(rest, {at})[1..]
  {
    if piece == [] {
      assert piece + rest == rest;
      assert SplitAny(rest, {at}) == [""] + SplitAny(rest, {at})[1..];
    } else {
      assert piece[0] in piece && (piece + rest)[1..] == piece[1..] + rest;
      SplitAfterPiece(piece[1..], rest, at);
      assert piece == [piece[0]] + piece[1..];
    }
  }

  /** A number as a template literal writes it. */
  function Decimal(n: nat): (digits: string)
    ensures |digits| > 0 && (n < 10 <==> |digits| == 1)
  {
    if n < 10 then ["0123456789"[n]] else Decimal(n / 10) + ["0123456789"[n % 10]]
  }

  lemma {:induction false} DecimalIsInjective(a: nat, b: nat)
    requires Decimal(a) == Decimal(b)
    ensures a == b
  {
    var x, y := Decimal(a), Decimal(b);
    assert x[|x| - 1] == "0123456789"[a % 10] && y[|y| - 1] == "0123456789"[b % 10];
    if a >= 10 {
      assert Decimal(a / 10) == x[..|x| - 1] == Decimal(b / 10);
      DecimalIsInjective(a / 10, b / 10);
    }
  }

  /** The UTF-16 code units of a character. */
  function Units(c: char): (units: seq<int>)
    ensures 1 <= |units| <= 2
    ensures |units| == 2 ==> 0xd800 <= units[0] <= 0xdbff && 0xdc00 <= units[1] <= 0xdfff
    ensures |units| == 1 ==> !(0xd800 <= units[0] <= 0xdfff)
  {
    var n := c as int;
    if n < 0x10000 then [n] else [0xd800 + (n - 0x10000) / 0x400, 0xdc00 + (n - 0x10000) % 0x400]
  }

  function Encoded(s: string): (units: seq<int>)
    ensures s != "" ==> units != []
  {
    if s == "" then [] else Units(s[0]) + Encoded(s[1..])
  }

  /** Where the first element that meets `p` stands, or the length. */
  function FirstWhere<T(!new)>(s: seq<T>, p: T -> bool): (i: nat)
    ensures i <= |s| && (i < |s| ==> p(s[i]))
    ensures forall j | 0 <= j < i :: !p(s[j])
  {
    if s == [] || p(s[0]) then 0
    else
      assert forall j | 1 <= j < |s| :: s[j] == s[1..][j - 1];
      1 + FirstWhere(s[1..], p)
  }

  /** What `f` makes of each element, one after the other. */
  function Flat<T, U>(xs: seq<T>, f: T -> seq<U>): seq<U> {
    if xs == [] then [] else f(xs[0]) + Flat(xs[1..], f)
  }

  lemma {:induction false} FlatJoins<T, U>(a: seq<T>, b: seq<T>, f: T -> seq<U>)
    ensures Flat(a + b, f) == Flat(a, f) + Flat(b, f)
    decreases |a|
  {
    if a == [] {
      assert a + b == b;
    } else {
      FlatJoins(a[1..], b, f);
      assert (a + b)[0] == a[0] && (a + b)[1..] == a[1..] + b;
      Associates(f(a[0]), Flat(a[1..], f), Flat(b, f));
    }
  }

  lemma {:induction false} InFlat<T, U>(xs: seq<T>, f: T -> seq<U>, u: U)
    ensures u in Flat(xs, f) <==> exists i | 0 <= i < |xs| :: u in f(xs[i])
    decreases |xs|
  {
    if xs != [] {
      InFlat(xs[1..], f, u);
      if i :| 0 <= i < |xs| && u in f(xs[i]) {
        assert i > 0 ==> xs[1..][i - 1] == xs[i];
      }
    }
  }

  lemma Associates<T>(a: seq<T>, b: seq<T>, c: seq<T>)
    ensures a + (b + c) == (a + b) + c
  {
  }
}
