/** String helpers the client leans on: Go's byte-wise string order (used by
    `sort.Strings`), `strings.Join`, splitting on a separator, `strings.Cut`
    and `fmt.Sprintf` with a single `%s` verb.

    Go strings are byte strings; here a string is a sequence of Unicode scalar
    values. Comparing UTF-8 encodings byte by byte orders strings exactly as
    comparing their code points one by one, so `Less` below is Go's `<` on
    strings. */
module Text {

  /** Strict lexicographic order on code points (Go's `a < b` on strings). */
  predicate Less(a: string, b: string)
  {
    if |b| == 0 then false
    else if |a| == 0 then true
    else a[0] < b[0] || (a[0] == b[0] && Less(a[1..], b[1..]))
  }

  lemma {:induction false} LessIrreflexive(a: string)
    ensures !Less(a, a)
  {
    if |a| > 0 {
      LessIrreflexive(a[1..]);
    }
  }

  lemma {:induction false} LessTransitive(a: string, b: string, c: string)
    requires Less(a, b) && Less(b, c)
    ensures Less(a, c)
  {
    if |a| > 0 && a[0] == b[0] && b[0] == c[0] {
      LessTransitive(a[1..], b[1..], c[1..]);
    }
  }

  lemma {:induction false} LessTotal(a: string, b: string)
    requires a != b
    ensures Less(a, b) || Less(b, a)
  {
    if |a| > 0 && |b| > 0 && a[0] == b[0] {
      assert a == [a[0]] + a[1..];
      assert b == [b[0]] + b[1..];
      LessTotal(a[1..], b[1..]);
    }
  }

  lemma LessAsymmetric(a: string, b: string)
    requires Less(a, b)
    ensures !Less(b, a)
  {
    if Less(b, a) {
      LessTransitive(a, b, a);
      LessIrreflexive(a);
    }
  }

  /** Two strings that agree up to position `k` and differ there are
      ordered by their characters at `k`. */
  lemma {:induction false} LessAt(a: string, b: string, k: nat)
    requires k < |a| && k < |b|
    requires a[..k] == b[..k] && a[k] < b[k]
    ensures Less(a, b)
  {
    if k > 0 {
      assert a[0] == a[..k][0] == b[..k][0] == b[0];
      assert a[1..][..k - 1] == a[..k][1..];
      assert b[1..][..k - 1] == b[..k][1..];
      LessAt(a[1..], b[1..], k - 1);
    }
  }

  /** Every element is strictly below every later one. */
  predicate StrictlySorted(xs: seq<string>)
  {
    forall i, j :: 0 <= i < j < |xs| ==> Less(xs[i], xs[j])
  }

  /** Go's `strings.Join(parts, string(sep))`. */
  function Join(parts: seq<string>, sep: char): string
  {
    if |parts| == 0 then ""
    else if |parts| == 1 then parts[0]
    else parts[0] + [sep] + Join(parts[1..], sep)
  }

  /** Splits at every occurrence of `sep` (Go's `strings.Split(s, string(sep))`). */
  function Split(s: string, sep: char): (parts: seq<string>)
    ensures |parts| >= 1
  {
    if |s| == 0 then [""]
    else
      var rest := Split(s[1..], sep);
      if s[0] == sep then [""] + rest
      else [[s[0]] + rest[0]] + rest[1..]
  }

  lemma {:induction false} SplitPrefix(x: string, t: string, sep: char)
    requires sep !in x
    ensures Split(x + t, sep) == [x + Split(t, sep)[0]] + Split(t, sep)[1..]
  {
    if |x| > 0 {
      assert (x + t)[1..] == x[1..] + t;
      SplitPrefix(x[1..], t, sep);
      assert [x[0]] + (x[1..] + Split(t, sep)[0]) == x + Split(t, sep)[0];
    } else {
      var parts := Split(t, sep);
      assert x + t == t;
      assert x + parts[0] == parts[0];
      assert parts == [parts[0]] + parts[1..];
    }
  }

  /** Splitting a join recovers the parts when no part holds the separator. */
  lemma {:induction false} SplitJoin(parts: seq<string>, sep: char)
    requires |parts| >= 1
    requires forall i :: 0 <= i < |parts| ==> sep !in parts[i]
    ensures Split(Join(parts, sep), sep) == parts
  {
    if |parts| == 1 {
      SplitPrefix(parts[0], "", sep);
      assert parts[0] + "" == parts[0];
    } else {
      var rest := Join(parts[1..], sep);
      SplitJoin(parts[1..], sep);
      assert parts[0] + [sep] + rest == parts[0] + ([sep] + rest);
      SplitPrefix(parts[0], [sep] + rest, sep);
      assert ([sep] + rest)[1..] == rest;
      assert parts[0] + "" == parts[0];
      assert parts == [parts[0]] + parts[1..];
    }
  }

  /** Go's `strings.Cut(s, string(sep))`: the text before the first `sep`,
      the text after it, and whether `sep` occurred at all. */
  function Cut(s: string, sep: char): (r: (string, string, bool))
    ensures r.2 <==> sep in s
    ensures r.2 ==> s == r.0 + [sep] + r.1 && sep !in r.0
    ensures !r.2 ==> r.0 == s && r.1 == ""
  {
    if |s| == 0 then ("", "", false)
    else if s[0] == sep then ("", s[1..], true)
    else
      var (before, after, found) := Cut(s[1..], sep);
      assert s == [s[0]] + s[1..];
      ([s[0]] + before, after, found)
  }

  /** Cutting at a separator that does not occur in the head returns the head. */
  lemma {:induction false} CutAt(head: string, tail: string, sep: char)
    requires sep !in head
    ensures Cut(head + [sep] + tail, sep) == (head, tail, true)
  {
    if |head| > 0 {
      assert (head + [sep] + tail)[1..] == head[1..] + [sep] + tail;
      CutAt(head[1..], tail, sep);
      assert [head[0]] + head[1..] == head;
    } else {
      assert head + [sep] + tail == [sep] + tail;
    }
  }

  /** Go's `fmt.Sprintf(format, arg)` for a format holding one `%s` verb and
      no other `%`: the verb is replaced by `arg`. */
  function FormatOne(format: string, arg: string): string
  {
    if |format| < 2 then format
    else if format[0] == '%' && format[1] == 's' then arg + format[2..]
    else [format[0]] + FormatOne(format[1..], arg)
  }

  /** A character other than `%` is copied and formatting goes on after it. */
  lemma FormatOneCopies(c: char, rest: string, arg: string)
    requires c != '%' && |rest| >= 1
    ensures FormatOne([c] + rest, arg) == [c] + FormatOne(rest, arg)
  {
    assert ([c] + rest)[1..] == rest;
  }

  /** A leading `%s` is replaced and the rest is kept as it is. */
  lemma FormatOneVerb(suffix: string, arg: string)
    ensures FormatOne("%s" + suffix, arg) == arg + suffix
  {
    assert ("%s" + suffix)[2..] == suffix;
  }

  lemma {:induction false} FormatOneSubstitutes(prefix: string, suffix: string, arg: string)
    requires '%' !in prefix
    ensures FormatOne(prefix + "%s" + suffix, arg) == prefix + arg + suffix
  {
    if |prefix| > 0 {
      var rest := prefix[1..] + "%s" + suffix;
      assert prefix + "%s" + suffix == [prefix[0]] + rest;
      FormatOneCopies(prefix[0], rest, arg);
      FormatOneSubstitutes(prefix[1..], suffix, arg);
      assert [prefix[0]] + (prefix[1..] + arg + suffix) == prefix + arg + suffix;
    } else {
      assert prefix + "%s" + suffix == "%s" + suffix;
      FormatOneVerb(suffix, arg);
    }
  }
}
