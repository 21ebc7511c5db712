/** String operations the handlers rely on: decimal rendering of numbers (template literals),
    `startsWith`, and `split` on one separator character. */
module Text {

  function DigitChar(d: nat): (c: char)
    requires d < 10
    ensures '0' <= c <= '9'
  {
    ('0' as int + d) as char
  }

  /** The decimal rendering `${n}` of a non-negative integer, without leading zeros. */
  function NatToString(n: nat): (s: string)
    ensures |s| >= 1
    ensures forall i :: 0 <= i < |s| ==> '0' <= s[i] <= '9'
    ensures |s| > 1 ==> s[0] != '0'
    decreases n
  {
    if n < 10 then [DigitChar(n)] else NatToString(n / 10) + [DigitChar(n % 10)]
  }

  /** `${n}` for any integer: a minus sign before the digits of a negative number. */
  function IntToString(n: int): (s: string)
    ensures |s| >= 1
  {
    if n < 0 then "-" + NatToString(-n) else NatToString(n)
  }

  predicate StartsWith(s: string, prefix: string) {
    |prefix| <= |s| && s[..|prefix|] == prefix
  }

  lemma StartsWithConcat(prefix: string, rest: string)
    ensures StartsWith(prefix + rest, prefix) && (prefix + rest)[|prefix|..] == rest
  {
  }

  /** `s.split(sep)` for a one-character separator: the pieces between separators, in order;
      an empty string or a trailing separator yields an empty piece, as in JavaScript. */
  function Split(s: string, sep: char): (parts: seq<string>)
    ensures |parts| >= 1
    decreases |s|
  {
    if s == [] then [""]
    else
      var rest := Split(s[1..], sep);
      if s[0] == sep then [""] + rest else [[s[0]] + rest[0]] + rest[1..]
  }

  /** `parts.join(sep)`, as the appointment checkout writes `service_ids` into the metadata;
      joining no parts gives the empty string. */
  function Join(parts: seq<string>, sep: char): string
    decreases |parts|
  {
    if parts == [] then "" else if |parts| == 1 then parts[0] else parts[0] + [sep] + Join(parts[1..], sep)
  }

  /** No piece returned by `Split` contains the separator. */
  lemma {:induction false} SplitPiecesHaveNoSeparator(s: string, sep: char)
    ensures forall i :: 0 <= i < |Split(s, sep)| ==> sep !in Split(s, sep)[i]
    decreases |s|
  {
    if s != [] {
      SplitPiecesHaveNoSeparator(s[1..], sep);
    }
  }

  /** `Split` of a string that starts with `c`: a separator opens a new piece, any other
      character starts the first piece of the rest. */
  lemma SplitCons(c: char, t: string, sep: char)
    ensures Split([c] + t, sep) == if c == sep then [""] + Split(t, sep)
                                   else [[c] + Split(t, sep)[0]] + Split(t, sep)[1..]
  {
    assert ([c] + t)[0] == c && ([c] + t)[1..] == t;
  }

  lemma ConsAppend<T>(h: T, left: seq<T>, right: seq<T>)
    ensures [h] + (left + right) == ([h] + left) + right
  {
  }

  lemma ReplaceHeadAppend<T>(h: T, left: seq<T>, right: seq<T>)
    requires |left| >= 1
    ensures (left + right)[0] == left[0]
    ensures [h] + (left + right)[1..] == ([h] + left[1..]) + right
  {
    assert (left + right)[1..] == left[1..] + right;
  }

  lemma NotInConcat<T>(x: T, a: seq<T>, b: seq<T>)
    requires x !in a && x !in b
    ensures x !in a + b
  {
  }

  lemma Regroup<T>(a: seq<T>, b: seq<T>, c: seq<T>, d: seq<T>)
    ensures a + (b + c) + d == a + b + (c + d)
  {
  }

  /** One character more in front of the first string keeps the split of the joined strings
      the split of each, in order. */
  lemma SplitConcatStep(c: char, tail: string, b: string, sep: char)
    requires Split(tail + [sep] + b, sep) == Split(tail, sep) + Split(b, sep)
    ensures Split([c] + (tail + [sep] + b), sep) == Split([c] + tail, sep) + Split(b, sep)
  {
    var left, right := Split(tail, sep), Split(b, sep);
    SplitCons(c, tail + [sep] + b, sep);
    SplitCons(c, tail, sep);
    if c == sep {
      ConsAppend("", left, right);
    } else {
      ReplaceHeadAppend([c] + left[0], left, right);
    }
  }

  /** Splitting two strings joined by the separator gives the pieces of each, in order. */
  lemma {:induction false} SplitConcat(a: string, b: string, sep: char)
    ensures Split(a + [sep] + b, sep) == Split(a, sep) + Split(b, sep)
    decreases |a|
  {
    if a == [] {
      assert a + [sep] + b == [sep] + b;
      SplitCons(sep, b, sep);
    } else {
      SplitConcat(a[1..], b, sep);
      SplitConcatStep(a[0], a[1..], b, sep);
      assert [a[0]] + a[1..] == a;
      assert [a[0]] + (a[1..] + [sep] + b) == a + [sep] + b;
    }
  }

  /** A string without the separator splits into itself alone. */
  lemma {:induction false} SplitWithoutSeparator(s: string, sep: char)
    requires sep !in s
    ensures Split(s, sep) == [s]
    decreases |s|
  {
    if s != [] {
      assert sep !in s[1..] by {
        forall c | c in s[1..] ensures c != sep { assert c in s; }
      }
      SplitWithoutSeparator(s[1..], sep);
      assert [s[0]] + s[1..] == s;
    }
  }
}
