/** The parts of Go's `strings` and `strconv` packages the parsers are built on:
    leftmost non-overlapping `Split`, `TrimSpace`, and 64-bit decimal conversion. */
module GoStrings {

  /** `sep` stands in `s` at position `k`. */
  predicate Occurs(s: string, sep: string, k: int) {
    0 <= k && k + |sep| <= |s| && s[k..k + |sep|] == sep
  }

  lemma OccursInTail(s: string, sep: string, k: int)
    requires s != "" && 1 <= k
    ensures Occurs(s, sep, k) <==> Occurs(s[1..], sep, k - 1)
  {
    if k + |sep| <= |s| {
      assert s[1..][k - 1..k - 1 + |sep|] == s[k..k + |sep|];
    }
  }

  lemma OccurrencesInTail(s: string, sep: string)
    requires s != ""
    ensures forall k :: 1 <= k ==> (Occurs(s, sep, k) <==> Occurs(s[1..], sep, k - 1))
    ensures forall k :: 0 <= k && Occurs(s[1..], sep, k) ==> Occurs(s, sep, k + 1)
  {
    forall k | 1 <= k ensures Occurs(s, sep, k) <==> Occurs(s[1..], sep, k - 1) {
      OccursInTail(s, sep, k);
    }
    forall k | 0 <= k && Occurs(s[1..], sep, k) ensures Occurs(s, sep, k + 1) {
      OccursInTail(s, sep, k + 1);
    }
  }

  /** The position of the leftmost occurrence of `sep` in `s`, or -1. */
  function Index(s: string, sep: string): (i: int)
    ensures -1 <= i
    ensures i < 0 ==> forall k :: !Occurs(s, sep, k)
    ensures 0 <= i ==> Occurs(s, sep, i) && forall k :: Occurs(s, sep, k) ==> i <= k
  {
    if Occurs(s, sep, 0) then 0
    else if s == "" then -1
    else
      var rest := Index(s[1..], sep);
      OccurrencesInTail(s, sep);
      if rest < 0 then -1 else rest + 1
  }

  predicate Contains(s: string, sep: string) {
    0 <= Index(s, sep)
  }

  predicate HasPrefix(s: string, prefix: string) {
    prefix <= s
  }

  /** Cut at every occurrence of the separator, scanning from the left. */
  function Split(s: string, sep: string): (pieces: seq<string>)
    requires sep != ""
    ensures |pieces| >= 1
    decreases |s|
  {
    var i := Index(s, sep);
    if i < 0 then [s] else [s[..i]] + Split(s[i + |sep|..], sep)
  }

  function Join(pieces: seq<string>, sep: string): string {
    if |pieces| == 0 then ""
    else if |pieces| == 1 then pieces[0]
    else pieces[0] + sep + Join(pieces[1..], sep)
  }

  function Last<T>(xs: seq<T>): T
    requires xs != []
  {
    xs[|xs| - 1]
  }

  predicate Free(s: string, c: char) {
    forall k :: 0 <= k < |s| ==> s[k] != c
  }

  lemma CharOccurs(s: string, c: char, k: int)
    ensures Occurs(s, [c], k) <==> 0 <= k < |s| && s[k] == c
  {
  }

  lemma FreeIndex(s: string, c: char)
    ensures Free(s, c) <==> Index(s, [c]) < 0
  {
    var i := Index(s, [c]);
    if i < 0 {
      forall k | 0 <= k < |s| ensures s[k] != c {
        CharOccurs(s, c, k);
      }
    } else {
      CharOccurs(s, c, i);
    }
  }

  /** The leftmost occurrence is the only one with nothing before it. */
  lemma IndexIs(s: string, sep: string, i: nat)
    requires Occurs(s, sep, i)
    requires forall k :: 0 <= k < i ==> !Occurs(s, sep, k)
    ensures Index(s, sep) == i
  {
  }

  lemma IndexOfChar(head: string, c: char, tail: string)
    requires Free(head, c)
    ensures Index(head + [c] + tail, [c]) == |head|
  {
    var s := head + [c] + tail;
    forall k | 0 <= k < |head| ensures !Occurs(s, [c], k) {
      CharOccurs(s, c, k);
      assert s[k] == head[k];
    }
    CharOccurs(s, c, |head|);
    IndexIs(s, [c], |head|);
  }

  lemma SplitNowhere(s: string, sep: string)
    requires sep != "" && Index(s, sep) < 0
    ensures Split(s, sep) == [s]
  {
  }

  lemma SplitHere(s: string, sep: string, i: nat)
    requires sep != "" && Index(s, sep) == i
    ensures Split(s, sep) == [s[..i]] + Split(s[i + |sep|..], sep)
  {
  }

  lemma OnePiece(s: string, sep: string)
    requires sep != "" && |Split(s, sep)| == 1
    ensures Split(s, sep) == [s]
  {
  }

  lemma ContainsMiddle(front: string, sep: string, back: string)
    ensures Contains(front + sep + back, sep)
  {
    assert Occurs(front + sep + back, sep, |front|);
  }

  /** With two pieces, the second is all that follows the separator. */
  lemma SplitInTwo(s: string, sep: string)
    requires sep != "" && |Split(s, sep)| == 2
    ensures Contains(s, sep) && Split(s, sep)[1] == s[Index(s, sep) + |sep|..]
  {
    if Contains(s, sep) {
      SplitHere(s, sep, Index(s, sep));
      OnePiece(s[Index(s, sep) + |sep|..], sep);
    }
  }

  /** A leading separator does not change the last piece. */
  lemma LastAfterPrefix(s: string, sep: string)
    requires sep != "" && HasPrefix(s, sep)
    ensures Last(Split(s, sep)) == Last(Split(s[|sep|..], sep))
  {
    IndexIs(s, sep, 0);
    SplitHere(s, sep, 0);
  }

  /** The last piece is what follows the last separator. */
  lemma {:induction false} LastPieceAfter(front: string, c: char, name: string)
    requires Free(name, c)
    ensures Last(Split(front + [c] + name, [c])) == name
    decreases |front|
  {
    var s := front + [c] + name;
    CharOccurs(s, c, |front|);
    var i := Index(s, [c]);
    SplitHere(s, [c], i);
    if i == |front| {
      assert s[i + 1..] == name;
      FreeIndex(name, c);
      SplitNowhere(name, [c]);
    } else {
      assert s[i + 1..] == front[i + 1..] + [c] + name;
      LastPieceAfter(front[i + 1..], c, name);
    }
  }

  /** One separator between two texts, the second without it. */
  lemma SplitBetween(head: string, sep: string, tail: string)
    requires sep != "" && Index(head + sep + tail, sep) == |head| && !Contains(tail, sep)
    ensures Split(head + sep + tail, sep) == [head, tail]
  {
    var s := head + sep + tail;
    assert s[..|head|] == head && s[|head| + |sep|..] == tail;
    SplitHere(s, sep, |head|);
    SplitNowhere(tail, sep);
  }

  /** Splitting loses nothing: joining the pieces gives the string back. */
  lemma {:induction false} JoinSplit(s: string, sep: string)
    requires sep != ""
    ensures Join(Split(s, sep), sep) == s
    decreases |s|
  {
    var i := Index(s, sep);
    if i < 0 {
      SplitNowhere(s, sep);
    } else {
      var rest := s[i + |sep|..];
      SplitHere(s, sep, i);
      JoinSplit(rest, sep);
      JoinCons(s[..i], Split(rest, sep), sep);
      CutAt(s, sep, i);
    }
  }

  lemma CutAt(s: string, sep: string, i: nat)
    requires Occurs(s, sep, i)
    ensures s == s[..i] + sep + s[i + |sep|..]
  {
    assert s == s[..i] + s[i..i + |sep|] + s[i + |sep|..];
  }

  lemma JoinCons(head: string, pieces: seq<string>, sep: string)
    requires pieces != []
    ensures Join([head] + pieces, sep) == head + sep + Join(pieces, sep)
  {
    assert ([head] + pieces)[1..] == pieces;
  }

  lemma HeadHasNoSeparator(s: string, sep: string)
    requires sep != "" && Contains(s, sep)
    ensures !Contains(s[..Index(s, sep)], sep)
  {
    var i := Index(s, sep);
    var j := Index(s[..i], sep);
    if j >= 0 {
      assert s[..i][j..j + |sep|] == s[j..j + |sep|];
      assert Occurs(s, sep, j);
    }
  }

  /** No piece still holds the separator. */
  lemma {:induction false} PiecesHaveNoSeparator(s: string, sep: string, n: nat)
    requires sep != "" && n < |Split(s, sep)|
    ensures !Contains(Split(s, sep)[n], sep)
    decreases |s|
  {
    var i := Index(s, sep);
    if i < 0 {
      SplitNowhere(s, sep);
    } else {
      SplitHere(s, sep, i);
      if n == 0 {
        HeadHasNoSeparator(s, sep);
      } else {
        PiecesHaveNoSeparator(s[i + |sep|..], sep, n - 1);
      }
    }
  }

  /** Splitting undoes joining for one-character separators. */
  lemma {:induction false} SplitJoin(pieces: seq<string>, c: char)
    requires pieces != []
    requires forall k :: 0 <= k < |pieces| ==> Free(pieces[k], c)
    ensures Split(Join(pieces, [c]), [c]) == pieces
  {
    if |pieces| == 1 {
      FreeIndex(pieces[0], c);
      SplitNowhere(pieces[0], [c]);
    } else {
      var head, rest := pieces[0], Join(pieces[1..], [c]);
      var s := head + [c] + rest;
      SplitJoin(pieces[1..], c);
      IndexOfChar(head, c, rest);
      SplitHere(s, [c], |head|);
      assert s[..|head|] == head && s[|head| + 1..] == rest;
      assert pieces == [head] + pieces[1..];
    }
  }

  /** The number of pieces counts the separators. */
  function CountChar(s: string, c: char): nat {
    if s == "" then 0 else (if s[0] == c then 1 else 0) + CountChar(s[1..], c)
  }

  lemma {:induction false} CountCharAppend(a: string, b: string, c: char)
    ensures CountChar(a + b, c) == CountChar(a, c) + CountChar(b, c)
  {
    if a == "" {
      assert a + b == b;
    } else {
      assert (a + b)[1..] == a[1..] + b;
      CountCharAppend(a[1..], b, c);
    }
  }

  lemma {:induction false} FreeCount(s: string, c: char)
    ensures Free(s, c) <==> CountChar(s, c) == 0
  {
    if s != "" {
      FreeCount(s[1..], c);
      assert Free(s, c) <==> s[0] != c && Free(s[1..], c) by {
        assert forall k :: 1 <= k < |s| ==> s[k] == s[1..][k - 1];
      }
    }
  }

  lemma {:induction false} PieceCount(s: string, c: char)
    ensures |Split(s, [c])| == CountChar(s, c) + 1
    decreases |s|
  {
    var i := Index(s, [c]);
    FreeIndex(s, c);
    FreeCount(s, c);
    if i < 0 {
      SplitNowhere(s, [c]);
    } else {
      var head, rest := s[..i], s[i + 1..];
      HeadHasNoSeparator(s, [c]);
      FreeIndex(head, c);
      FreeCount(head, c);
      CharOccurs(s, c, i);
      assert s == head + [c] + rest;
      CountCharAppend(head + [c], rest, c);
      CountCharAppend(head, [c], c);
      SplitHere(s, [c], i);
      PieceCount(rest, c);
    }
  }

  // ---- TrimSpace ----

  /** `unicode.IsSpace`. */
  predicate IsSpace(c: char) {
    var n := c as int;
    || 0x09 <= n <= 0x0d || n == 0x20 || n == 0x85 || n == 0xa0 || n == 0x1680
    || 0x2000 <= n <= 0x200a || n == 0x2028 || n == 0x2029 || n == 0x202f || n == 0x205f || n == 0x3000
  }

  predicate Blank(s: string) {
    forall k :: 0 <= k < |s| ==> IsSpace(s[k])
  }

  predicate Solid(s: string) {
    forall k :: 0 <= k < |s| ==> !IsSpace(s[k])
  }

  function TrimLeft(s: string): string {
    if s != "" && IsSpace(s[0]) then TrimLeft(s[1..]) else s
  }

  function TrimRight(s: string): string {
    if s != "" && IsSpace(Last(s)) then TrimRight(s[..|s| - 1]) else s
  }

  function TrimSpace(s: string): string {
    TrimRight(TrimLeft(s))
  }

  lemma {:induction false} TrimLeftBlank(a: string, s: string)
    requires Blank(a)
    ensures TrimLeft(a + s) == TrimLeft(s)
  {
    if a == "" {
      assert a + s == s;
    } else {
      assert (a + s)[1..] == a[1..] + s;
      TrimLeftBlank(a[1..], s);
    }
  }

  lemma {:induction false} TrimRightBlank(s: string, b: string)
    requires Blank(b)
    ensures TrimRight(s + b) == TrimRight(s)
  {
    if b == "" {
      assert s + b == s;
    } else {
      assert (s + b)[..|s + b| - 1] == s + b[..|b| - 1];
      TrimRightBlank(s, b[..|b| - 1]);
    }
  }

  /** Whatever blanks surround it, trimming finds text that starts and ends solid. */
  lemma TrimFinds(a: string, core: string, b: string)
    requires Blank(a) && Blank(b)
    requires core == "" || (!IsSpace(core[0]) && !IsSpace(Last(core)))
    ensures TrimSpace(a + core + b) == core
  {
    assert a + core + b == a + (core + b);
    TrimLeftBlank(a, core + b);
    if core == "" {
      assert core + b == b + "";
      TrimLeftBlank(b, "");
    } else {
      assert TrimLeft(core + b) == core + b;
    }
    TrimRightBlank(core, b);
  }

  lemma TrimSolid(s: string)
    requires Solid(s)
    ensures TrimSpace(s) == s
  {
    TrimFinds("", s, "");
    assert "" + s + "" == s;
  }

  // ---- strconv ----

  const MAX_INT: int := 0x7fff_ffff_ffff_ffff
  const MIN_INT: int := -0x8000_0000_0000_0000

  predicate Digit(c: char) {
    '0' <= c <= '9'
  }

  predicate AllDigits(s: string) {
    forall k :: 0 <= k < |s| ==> Digit(s[k])
  }

  /** The number a digit string denotes. */
  function Decimal(s: string): nat
    requires AllDigits(s)
  {
    if s == "" then 0 else 10 * Decimal(s[..|s| - 1]) + (Last(s) as int - '0' as int)
  }

  /** The result pair of `strconv.Atoi`: the value is meaningful on errors too. */
  datatype Conversion = Conversion(value: int, ok: bool)

  function Atoi(s: string): (r: Conversion)
    ensures MIN_INT <= r.value <= MAX_INT
  {
    var negative := s != "" && s[0] == '-';
    var digits := if s != "" && (s[0] == '-' || s[0] == '+') then s[1..] else s;
    if digits == "" || !AllDigits(digits) then Conversion(0, false)
    else
      var n: int := Decimal(digits);
      if negative then
        if -n < MIN_INT then Conversion(MIN_INT, false) else Conversion(-n, true)
      else
        if n > MAX_INT then Conversion(MAX_INT, false) else Conversion(n, true)
  }

  /** Decimal digits without leading zeros. */
  function Digits(n: nat): (s: string)
    ensures s != "" && AllDigits(s)
  {
    if n < 10 then ['0' + n as char]
    else Digits(n / 10) + ['0' + (n % 10) as char]
  }

  /** `%d`. */
  function Itoa(n: int): string {
    if n < 0 then "-" + Digits(-n) else Digits(n)
  }

  lemma {:induction false} DecimalDigits(n: nat)
    ensures Decimal(Digits(n)) == n
  {
    if n < 10 {
      assert Digits(n)[..0] == "";
    } else {
      DecimalDigits(n / 10);
      assert Digits(n)[..|Digits(n)| - 1] == Digits(n / 10);
    }
  }

  lemma {:induction false} DigitsSolid(n: nat)
    ensures Solid(Digits(n)) && Free(Digits(n), '-') && Free(Digits(n), 'S')
  {
    if n >= 10 {
      DigitsSolid(n / 10);
    }
  }

  /** Printing is one-to-one. */
  lemma ItoaInjective(a: int, b: int)
    requires Itoa(a) == Itoa(b)
    ensures a == b
  {
    DigitsSolid(if a < 0 then -a else a);
    DigitsSolid(if b < 0 then -b else b);
    DecimalDigits(if a < 0 then -a else a);
    DecimalDigits(if b < 0 then -b else b);
    assert (a < 0 <==> Itoa(a)[0] == '-') && (b < 0 <==> Itoa(b)[0] == '-');
    assert a < 0 ==> Itoa(a)[1..] == Digits(-a);
    assert b < 0 ==> Itoa(b)[1..] == Digits(-b);
  }

  /** Every number of 64 bits, negative ones included, is read back from its decimal text. */
  lemma AtoiItoa(n: int)
    requires MIN_INT <= n <= MAX_INT
    ensures Atoi(Itoa(n)) == Conversion(n, true)
  {
    if n >= 0 {
      AtoiDigits(n);
    } else {
      DecimalDigits(-n);
      assert Itoa(n)[1..] == Digits(-n);
    }
  }

  lemma AtoiDigits(n: nat)
    ensures Atoi(Digits(n)) == if n <= MAX_INT then Conversion(n, true) else Conversion(MAX_INT, false)
  {
    DecimalDigits(n);
    DigitsSolid(n);
    assert Digit(Digits(n)[0]);
  }

  /** Go's conversion of an int to int32 keeps the low 32 bits. */
  function ToInt32(n: int): (r: int)
    ensures -0x8000_0000 <= r < 0x8000_0000
    ensures -0x8000_0000 <= n < 0x8000_0000 <==> r == n
    ensures (n - r) % 0x1_0000_0000 == 0
  {
    (n + 0x8000_0000) % 0x1_0000_0000 - 0x8000_0000
  }
}
