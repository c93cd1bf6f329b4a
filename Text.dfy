/** String operations the builder relies on, written out so that their
    behaviour can be stated: `substr_count` (Count), `implode` (Join),
    `str_repeat('?,', n-1) . '?'` (Placeholders), `rtrim` (RTrim),
    `strtoupper` (Upper) and integer interpolation (IntToString). */
module Text {

  /** Number of occurrences of `c` in `s`, as `substr_count` with a one-character needle. */
  function Count(s: string, c: char): (n: nat)
    ensures n == 0 <==> c !in s
  {
    if s == [] then 0 else (if s[0] == c then 1 else 0) + Count(s[1..], c)
  }

  lemma {:induction false} CountConcat(a: string, b: string, c: char)
    ensures Count(a + b, c) == Count(a, c) + Count(b, c)
  {
    if a != [] {
      assert (a + b)[1..] == a[1..] + b;
      CountConcat(a[1..], b, c);
    } else {
      assert a + b == b;
    }
  }

  /** A text without `c` between, before or after others adds no occurrence of `c`. */
  lemma CountAcross(x: string, lit: string, y: string, c: char)
    requires c !in lit
    ensures Count(x + lit + y, c) == Count(x, c) + Count(y, c)
  {
    CountConcat(x, lit, c);
    CountConcat(x + lit, y, c);
  }

  lemma CountAfter(lit: string, y: string, c: char)
    requires c !in lit
    ensures Count(lit + y, c) == Count(y, c)
  {
    CountConcat(lit, y, c);
  }

  lemma CountBefore(x: string, lit: string, c: char)
    requires c !in lit
    ensures Count(x + lit, c) == Count(x, c)
  {
    CountConcat(x, lit, c);
  }

  /** Sum of the occurrences of `c` over all of `parts`. */
  function CountAll(parts: seq<string>, c: char): nat
  {
    if parts == [] then 0 else Count(parts[0], c) + CountAll(parts[1..], c)
  }

  lemma {:induction false} CountAllAppend(parts: seq<string>, x: string, c: char)
    ensures CountAll(parts + [x], c) == CountAll(parts, c) + Count(x, c)
  {
    if parts != [] {
      assert (parts + [x])[1..] == parts[1..] + [x];
      CountAllAppend(parts[1..], x, c);
    }
  }

  /** `implode(sep, parts)`: the parts in order, with `sep` between neighbours. It
      starts with the first part, and with a separator after it when more follow. */
  function Join(sep: string, parts: seq<string>): (r: string)
    ensures parts != [] ==> parts[0] <= r
    ensures |parts| > 1 ==> parts[0] + sep <= r
  {
    if parts == [] then ""
    else if |parts| == 1 then parts[0]
    else parts[0] + sep + Join(sep, parts[1..])
  }

  /** Joining with a separator free of `c` neither adds nor loses occurrences of `c`. */
  lemma {:induction false} JoinCount(sep: string, parts: seq<string>, c: char)
    requires c !in sep
    ensures Count(Join(sep, parts), c) == CountAll(parts, c)
  {
    if |parts| > 1 {
      JoinCount(sep, parts[1..], c);
      CountConcat(parts[0], sep, c);
      CountConcat(parts[0] + sep, Join(sep, parts[1..]), c);
    }
  }

  /** Joining one more part appends the separator and that part. */
  lemma {:induction false} JoinAppend(sep: string, parts: seq<string>, x: string)
    requires parts != []
    ensures Join(sep, parts + [x]) == Join(sep, parts) + sep + x
  {
    if |parts| > 1 {
      assert (parts + [x])[1..] == parts[1..] + [x];
      JoinAppend(sep, parts[1..], x);
    }
  }

  /** The join of non-empty parts ends with the last part. */
  lemma {:induction false} JoinEndsWithLast(sep: string, parts: seq<string>)
    requires parts != []
    ensures |Join(sep, parts)| >= |parts[|parts| - 1]|
    ensures Join(sep, parts)[|Join(sep, parts)| - |parts[|parts| - 1]|..] == parts[|parts| - 1]
  {
    if |parts| > 1 {
      JoinEndsWithLast(sep, parts[1..]);
    }
  }

  /** `str_repeat(s, n)`: `n` copies of `s` one after the other. */
  function Repeat(s: string, n: nat): (r: string)
    ensures |r| == n * |s|
    ensures n > 0 ==> s <= r
  {
    if n == 0 then "" else s + Repeat(s, n - 1)
  }

  /** `str_repeat('?,', n - 1) . '?'`: a comma-separated list of `n` placeholders. */
  function Placeholders(n: nat): (r: string)
    requires n > 0
    ensures |r| == 2 * n - 1
    ensures r[0] == '?' && r[|r| - 1] == '?'
  {
    Repeat("?,", n - 1) + "?"
  }

  /** A list of `k` copies of `s`. */
  function Copies(s: string, k: nat): (r: seq<string>)
    ensures |r| == k && forall i :: 0 <= i < k ==> r[i] == s
  {
    if k == 0 then [] else [s] + Copies(s, k - 1)
  }

  lemma PlaceholdersStep(n: nat)
    requires n > 1
    ensures Placeholders(n) == "?," + Placeholders(n - 1)
  {
    assert Repeat("?,", n - 1) == "?," + Repeat("?,", n - 2);
  }

  lemma CopiesStep(n: nat)
    requires n > 1
    ensures Join(",", Copies("?", n)) == "?," + Join(",", Copies("?", n - 1))
  {
    var c := Copies("?", n);
    assert c[1..] == Copies("?", n - 1);
    assert Join(",", c) == c[0] + "," + Join(",", c[1..]);
  }

  /** Placeholders agree with the independent definition "n question marks joined by commas",
      so they hold exactly `n` question marks and are `2n - 1` characters long. */
  lemma {:induction false} PlaceholdersSpec(n: nat)
    requires n > 0
    ensures Placeholders(n) == Join(",", Copies("?", n))
    ensures Count(Placeholders(n), '?') == n
    ensures |Placeholders(n)| == 2 * n - 1
  {
    if n > 1 {
      PlaceholdersSpec(n - 1);
      PlaceholdersStep(n);
      CopiesStep(n);
      CountConcat("?,", Placeholders(n - 1), '?');
    }
  }

  /** `rtrim(s, c)`: `s` without the run of `c` at its end. */
  function RTrim(s: string, c: char): (r: string)
    ensures r <= s
    ensures r == [] || r[|r| - 1] != c
    ensures forall i :: |r| <= i < |s| ==> s[i] == c
  {
    if s == [] || s[|s| - 1] != c then s else RTrim(s[..|s| - 1], c)
  }

  /** Trimming a single trailing `c` from a text that does not otherwise end in `c`
      gives that text back. */
  lemma RTrimOne(s: string, c: char)
    requires s == [] || s[|s| - 1] != c
    ensures RTrim(s + [c], c) == s
  {
    assert (s + [c])[..|s|] == s;
  }

  /** ASCII `strtoupper` of one character. */
  function UpperChar(ch: char): (u: char)
    ensures !('a' <= u <= 'z')
    ensures 'a' <= ch <= 'z' ==> u as int == ch as int - 32
    ensures !('a' <= ch <= 'z') ==> u == ch
  {
    if 'a' <= ch <= 'z' then (ch as int - 32) as char else ch
  }

  /** ASCII `strtoupper`. */
  function Upper(s: string): (r: string)
    ensures |r| == |s|
    ensures forall i :: 0 <= i < |s| ==> r[i] == UpperChar(s[i])
  {
    if s == [] then [] else [UpperChar(s[0])] + Upper(s[1..])
  }

  function DigitChar(d: nat): (ch: char)
    requires d < 10
    ensures '0' <= ch <= '9'
  {
    "0123456789"[d]
  }

  function DigitValue(ch: char): nat
    requires '0' <= ch <= '9'
  {
    ch as int - '0' as int
  }

  /** Decimal digits of `n`, most significant first. */
  function NatToString(n: nat): (s: string)
    ensures s != [] && '0' <= s[0] <= '9'
  {
    if n < 10 then [DigitChar(n)] else NatToString(n / 10) + [DigitChar(n % 10)]
  }

  /** The decimal text PHP interpolates for an integer: a minus sign exactly for
      negative numbers. */
  function IntToString(n: int): (s: string)
    ensures s != [] && (s[0] == '-' <==> n < 0)
  {
    if n < 0 then "-" + NatToString(-n) else NatToString(n)
  }

  predicate IsDigits(s: string)
  {
    forall i :: 0 <= i < |s| ==> '0' <= s[i] <= '9'
  }

  /** Reads a string of decimal digits back as a number. */
  function ParseNat(s: string): nat
    requires IsDigits(s)
  {
    if s == [] then 0 else 10 * ParseNat(s[..|s| - 1]) + DigitValue(s[|s| - 1])
  }

  /** Reads an optionally signed decimal back as an integer. */
  function ParseInt(s: string): int
    requires s != []
    requires s[0] == '-' ==> IsDigits(s[1..])
    requires s[0] != '-' ==> IsDigits(s)
  {
    if s[0] == '-' then -(ParseNat(s[1..]) as int) else ParseNat(s)
  }

  lemma {:induction false} NatDigits(n: nat)
    ensures NatToString(n) != [] && IsDigits(NatToString(n))
  {
    if n >= 10 {
      NatDigits(n / 10);
    }
  }

  /** An integer's text is non-empty and has no placeholder character. */
  lemma IntToStringClean(n: int)
    ensures IntToString(n) != [] && '?' !in IntToString(n)
  {
    NatDigits(if n < 0 then -n else n);
  }

  lemma {:induction false} NatRoundTrip(n: nat)
    ensures IsDigits(NatToString(n)) && ParseNat(NatToString(n)) == n
  {
    NatDigits(n);
    var s := NatToString(n);
    if n >= 10 {
      NatRoundTrip(n / 10);
      assert s[..|s| - 1] == NatToString(n / 10);
    }
  }

  /** Reading a minus sign followed by digits negates the digits' value. */
  lemma ParseNegative(d: string)
    requires d != [] && IsDigits(d)
    ensures ("-" + d)[1..] == d && ParseInt("-" + d) == -(ParseNat(d) as int)
  {
    assert ("-" + d)[1..] == d;
  }

  /** The text of a limit reads back as the same integer, so different limits render differently. */
  lemma IntRoundTrip(n: int)
    ensures IntToString(n) != []
    ensures IntToString(n)[0] == '-' ==> IsDigits(IntToString(n)[1..])
    ensures IntToString(n)[0] != '-' ==> IsDigits(IntToString(n))
    ensures ParseInt(IntToString(n)) == n
  {
    if n < 0 {
      var d := NatToString(-n);
      NatRoundTrip(-n);
      ParseNegative(d);
      assert IntToString(n) == "-" + d;
    } else {
      NatRoundTrip(n);
      assert IntToString(n) == NatToString(n);
    }
  }
}
