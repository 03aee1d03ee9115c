/** The few JavaScript string and number primitives the program relies on:
    `Array.prototype.join`, `String.prototype.split` on one character,
    `Number.prototype.toString(radix)` for integers, `String.prototype.repeat`,
    `startsWith` and `endsWith`. Strings are sequences of characters. */
module JsStrings {
  import opened Wrappers

  /** `items.join(sep)`. */
  function Join(items: seq<string>, sep: string): string
  {
    if |items| == 0 then ""
    else if |items| == 1 then items[0]
    else items[0] + sep + Join(items[1..], sep)
  }

  /** `s.split(c)` for a one-character separator: the pieces between the separators,
      empty pieces included, so there is always at least one. */
  function Split(s: string, c: char): (parts: seq<string>)
    ensures |parts| >= 1
  {
    if s == [] then [""]
    else
      var rest := Split(s[1..], c);
      if s[0] == c then [""] + rest else [[s[0]] + rest[0]] + rest[1..]
  }

  /** No piece holds the separator. */
  lemma {:induction false} SplitPiecesLack(s: string, c: char)
    ensures forall i :: 0 <= i < |Split(s, c)| ==> c !in Split(s, c)[i]
  {
    if s != [] {
      var rest := Split(s[1..], c);
      SplitPiecesLack(s[1..], c);
      if s[0] != c {
        assert c !in [s[0]] + rest[0];
        var parts := Split(s, c);
        forall i | 1 <= i < |parts| ensures c !in parts[i] {
          assert parts[i] == rest[i];
        }
      }
    }
  }

  /** A string without the separator splits into itself. */
  lemma {:induction false} SplitWithout(s: string, c: char)
    requires c !in s
    ensures Split(s, c) == [s]
  {
    if s != [] {
      SplitWithout(s[1..], c);
      assert [s[0]] + s[1..] == s;
    }
  }

  /** Splitting distributes over a separator placed between two strings. */
  lemma {:induction false} SplitConcat(a: string, b: string, c: char)
    ensures Split(a + [c] + b, c) == Split(a, c) + Split(b, c)
  {
    if a == [] {
      assert a + [c] + b == [c] + b;
      SplitSeparator(b, c);
    } else {
      var x, t := a[0], a[1..];
      SplitConcat(t, b, c);
      SplitConcatStep(x, t, b, c);
      assert [x] + t == a;
    }
  }

  /** The inductive step of `SplitConcat`: one more character in front. */
  lemma SplitConcatStep(x: char, t: string, b: string, c: char)
    requires Split(t + [c] + b, c) == Split(t, c) + Split(b, c)
    ensures Split([x] + t + [c] + b, c) == Split([x] + t, c) + Split(b, c)
  {
    var u := t + [c] + b;
    var front, back := Split(t, c), Split(b, c);
    assert [x] + t + [c] + b == [x] + u;
    if x == c {
      SplitSeparator(u, c);
      SplitSeparator(t, c);
      assert [""] + (front + back) == [""] + front + back;
    } else {
      SplitOther(x, u, c);
      SplitOther(x, t, c);
      MergeFirst([x], front, back);
    }
  }

  /** A leading separator starts a new, empty piece. */
  lemma SplitSeparator(t: string, c: char)
    ensures Split([c] + t, c) == [""] + Split(t, c)
  {
    assert ([c] + t)[0] == c && ([c] + t)[1..] == t;
  }

  /** Any other leading character joins the first piece. */
  lemma SplitOther(x: char, t: string, c: char)
    requires x != c
    ensures Split([x] + t, c) == [[x] + Split(t, c)[0]] + Split(t, c)[1..]
  {
    assert ([x] + t)[0] == x && ([x] + t)[1..] == t;
  }

  /** Prefixing the first piece commutes with appending more pieces. */
  lemma MergeFirst(p: string, xs: seq<string>, ys: seq<string>)
    requires |xs| >= 1
    ensures [p + (xs + ys)[0]] + (xs + ys)[1..] == [p + xs[0]] + xs[1..] + ys
  {
    assert (xs + ys)[0] == xs[0] && (xs + ys)[1..] == xs[1..] + ys;
  }

  /** Joining pieces that do not contain the separator and splitting again gives the pieces back. */
  lemma {:induction false} SplitJoin(items: seq<string>, c: char)
    requires |items| > 0
    requires forall i :: 0 <= i < |items| ==> c !in items[i]
    ensures Split(Join(items, [c]), c) == items
  {
    if |items| == 1 {
      SplitWithout(items[0], c);
    } else {
      SplitJoin(items[1..], c);
      SplitConcat(items[0], Join(items[1..], [c]), c);
      SplitWithout(items[0], c);
      assert [items[0]] + items[1..] == items;
    }
  }

  /** Joining two lists is joining their joins. */
  lemma {:induction false} JoinAppend(a: seq<string>, b: seq<string>, sep: string)
    requires |a| > 0 && |b| > 0
    ensures Join(a + b, sep) == Join(a, sep) + sep + Join(b, sep)
  {
    if |a| == 1 {
      assert (a + b)[1..] == b;
    } else {
      JoinAppend(a[1..], b, sep);
      assert (a + b)[1..] == a[1..] + b;
    }
  }

  /** The digit of value d, as `Number.prototype.toString` writes it: `0`-`9`, then `a`-`z`. */
  function Digit(d: nat): char
    requires d < 36
  {
    if d < 10 then ('0' as int + d) as char else ('a' as int + d - 10) as char
  }

  /** The value of a digit character (0 for anything that is not one). */
  function DigitValue(c: char): nat
  {
    if '0' <= c <= '9' then c as int - '0' as int
    else if 'a' <= c <= 'z' then c as int - 'a' as int + 10
    else 0
  }

  /** True of the characters `Digit` produces for radix `radix`. */
  predicate IsDigit(c: char, radix: nat)
  {
    ('0' <= c <= '9' || 'a' <= c <= 'z') && DigitValue(c) < radix
  }

  /** `n.toString(radix)` for a non-negative integer: most significant digit first,
      no leading zeros, lower-case letters. */
  function ToRadix(n: nat, radix: nat): (s: string)
    requires 2 <= radix <= 36
    ensures 1 <= |s|
    ensures forall i :: 0 <= i < |s| ==> IsDigit(s[i], radix)
    ensures n < radix <==> |s| == 1
    decreases n
  {
    if n < radix then [Digit(n)]
    else
      DivModBounds(n, radix);
      ToRadix(n / radix, radix) + [Digit(n % radix)]
  }

  lemma DivModBounds(n: nat, radix: nat)
    requires 2 <= radix <= n
    ensures 0 < n / radix < n && n % radix < radix
  {
  }

  lemma DivModSplit(n: nat, radix: nat)
    requires 2 <= radix
    ensures n == (n / radix) * radix + n % radix
  {
  }

  /** Reads digits of radix `radix`, most significant first. */
  function ParseRadix(s: string, radix: nat): nat
  {
    if s == [] then 0 else ParseRadix(s[..|s| - 1], radix) * radix + DigitValue(s[|s| - 1])
  }

  /** Printing a number and reading it back gives the number: distinct numbers print differently. */
  lemma {:induction false} ToRadixRoundTrip(n: nat, radix: nat)
    requires 2 <= radix <= 36
    ensures ParseRadix(ToRadix(n, radix), radix) == n
  {
    var s := ToRadix(n, radix);
    if n < radix {
      assert s == [Digit(n)];
    } else {
      var q, d := n / radix, n % radix;
      DivModBounds(n, radix);
      DivModSplit(n, radix);
      ToRadixRoundTrip(q, radix);
      assert s == ToRadix(q, radix) + [Digit(d)];
      assert s[..|s| - 1] == ToRadix(q, radix) && s[|s| - 1] == Digit(d);
      assert DigitValue(Digit(d)) == d;
    }
  }

  /** `String(n)` for a non-negative integer. */
  function NatToString(n: nat): string
  {
    ToRadix(n, 10)
  }

  /** `String(i)` for an integer, with a leading `-` when it is negative. */
  function IntToString(i: int): (s: string)
    ensures i >= 0 ==> s == NatToString(i)
    ensures i < 0 ==> s == "-" + NatToString(-i)
  {
    if i < 0 then "-" + NatToString(-i) else NatToString(i)
  }

  /** A printed integer holds only digits and the sign. */
  lemma IntToStringLacks(i: int, ch: char)
    requires !('0' <= ch <= '9') && !('a' <= ch <= 'z') && ch != '-'
    ensures ch !in IntToString(i)
  {
    var digits := NatToString(if i < 0 then -i else i);
    assert forall k :: 0 <= k < |digits| ==> IsDigit(digits[k], 10);
  }

  /** `c.repeat(n)` for a one-character string `c`. */
  function Repeat(c: char, n: nat): (r: string)
    ensures |r| == n
    ensures forall i :: 0 <= i < n ==> r[i] == c
  {
    if n == 0 then "" else [c] + Repeat(c, n - 1)
  }

  /** `s.startsWith(prefix)`. */
  predicate StartsWith(s: string, prefix: string)
  {
    |prefix| <= |s| && s[..|prefix|] == prefix
  }

  /** `s.endsWith(suffix)`. */
  predicate EndsWith(s: string, suffix: string)
  {
    |suffix| <= |s| && s[|s| - |suffix|..] == suffix
  }

  /** `!s` for a string that may be `undefined`: absent or empty. */
  predicate Falsy(s: Option<string>)
  {
    s.None? || s.value == ""
  }
}
