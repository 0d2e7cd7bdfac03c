/** The Python string and sequence built-ins the bot relies on: `str(int)`,
    `int(str)`, `str.split`, `str.startswith`, `str.join`, `s * n` and slicing
    with Python's clamping of out-of-range and negative bounds.
 */
module PyText {
  import opened PyJson

  predicate IsDigit(c: char) {
    '0' <= c <= '9'
  }

  function DigitChar(d: nat): (c: char)
    requires d < 10
    ensures IsDigit(c) && c as int - '0' as int == d
  {
    "0123456789"[d]
  }

  /** A non-empty run of ASCII digits. */
  predicate IsNumeral(s: string) {
    |s| > 0 && forall i :: 0 <= i < |s| ==> IsDigit(s[i])
  }

  function DigitValue(c: char): (d: nat)
    requires IsDigit(c)
    ensures d < 10
  {
    c as int - '0' as int
  }

  /** Decimal digits of `n`, most significant first, with no leading zeros. */
  function NatToString(n: nat): (r: string)
    ensures IsNumeral(r)
    ensures r[0] == '0' ==> n == 0
  {
    if n < 10 then [DigitChar(n)] else NatToString(n / 10) + [DigitChar(n % 10)]
  }

  /** Python's `str(n)` for an integer. */
  function IntToString(n: int): (r: string)
    ensures |r| > 0
    ensures r[0] == '-' <==> n < 0
    ensures ':' !in r
  {
    if n < 0 then "-" + NatToString(-n) else NatToString(n)
  }

  /** The value of a run of ASCII digits. */
  function NumeralValue(s: string): nat
    requires forall i :: 0 <= i < |s| ==> IsDigit(s[i])
  {
    if |s| == 0 then 0 else NumeralValue(s[..|s| - 1]) * 10 + DigitValue(s[|s| - 1])
  }

  /** Python's `int(s)` for an optional sign followed by ASCII digits; any
      other text raises `ValueError`. */
  function ParseInt(s: string): (r: Py<int>)
    ensures r.Ok? <==> IsNumeral(s) || (|s| > 1 && (s[0] == '-' || s[0] == '+') && IsNumeral(s[1..]))
    ensures r.Raise? ==> r.exc == ValueError
    ensures r.Ok? && s[0] == '-' ==> r.value <= 0
    ensures r.Ok? && s[0] != '-' ==> r.value >= 0
    ensures r.Ok? && IsNumeral(s) ==> r.value == NumeralValue(s)
    ensures r.Ok? && !IsNumeral(s) ==> (r.value == NumeralValue(s[1..]) || r.value == 0 - NumeralValue(s[1..]))
  {
    if |s| > 1 && s[0] == '-' && IsNumeral(s[1..]) then Ok(0 - NumeralValue(s[1..]))
    else if |s| > 1 && s[0] == '+' && IsNumeral(s[1..]) then Ok(NumeralValue(s[1..]))
    else if IsNumeral(s) then Ok(NumeralValue(s))
    else Raise(ValueError)
  }

  lemma {:induction false} NumeralRoundTrip(n: nat)
    ensures NumeralValue(NatToString(n)) == n
  {
    if n >= 10 {
      var s := NatToString(n);
      assert s[..|s| - 1] == NatToString(n / 10);
      NumeralRoundTrip(n / 10);
    }
  }

  /** `int(str(n)) == n` for every integer. */
  lemma ParseIntRoundTrip(n: int)
    ensures ParseInt(IntToString(n)) == Ok(n)
  {
    if n < 0 {
      NumeralRoundTrip(-n);
      ParseNegative(NatToString(-n));
    } else {
      NumeralRoundTrip(n);
      ParseUnsigned(NatToString(n));
    }
  }

  /** `int("-" + t)` for a run of digits `t`. */
  lemma ParseNegative(t: string)
    requires IsNumeral(t)
    ensures ParseInt("-" + t) == Ok(0 - NumeralValue(t))
  {
    assert ("-" + t)[1..] == t;
  }

  /** `int(t)` for a run of digits `t`. */
  lemma ParseUnsigned(t: string)
    requires IsNumeral(t)
    ensures ParseInt(t) == Ok(NumeralValue(t))
  {
    assert IsDigit(t[0]);
  }

  /** Python's `s.split(sep)` for a one-character separator. */
  function Split(s: string, sep: char): (parts: seq<string>)
    ensures |parts| > 0
    ensures forall i :: 0 <= i < |parts| ==> sep !in parts[i]
    decreases |s|
  {
    if |s| == 0 then [""]
    else if s[0] == sep then [""] + Split(s[1..], sep)
    else
      var rest := Split(s[1..], sep);
      [[s[0]] + rest[0]] + rest[1..]
  }

  /** Python's `sep.join(parts)`. */
  function Join(parts: seq<string>, sep: string): string
  {
    if |parts| == 0 then ""
    else if |parts| == 1 then parts[0]
    else parts[0] + sep + Join(parts[1..], sep)
  }

  /** Appending a part to a non-empty list appends the separator and that part. */
  lemma {:induction false} JoinAppend(parts: seq<string>, part: string, sep: string)
    requires |parts| > 0
    ensures Join(parts + [part], sep) == Join(parts, sep) + sep + part
    decreases |parts|
  {
    var longer := parts + [part];
    assert longer[0] == parts[0];
    if |parts| == 1 {
      assert longer[1..] == [part];
    } else {
      var rest := parts[1..];
      assert longer[1..] == rest + [part];
      JoinAppend(rest, part, sep);
      calc {
        Join(longer, sep);
        parts[0] + sep + Join(rest + [part], sep);
        parts[0] + sep + (Join(rest, sep) + sep + part);
        parts[0] + sep + Join(rest, sep) + sep + part;
        Join(parts, sep) + sep + part;
      }
    }
  }

  /** A joined list starts with its first part. */
  lemma JoinStartsWithFirst(parts: seq<string>, sep: string)
    requires |parts| > 0
    ensures StartsWith(Join(parts, sep), parts[0])
  {
    if |parts| > 1 {
      assert Join(parts, sep) == parts[0] + (sep + Join(parts[1..], sep));
      StartsWithConcat(parts[0], sep + Join(parts[1..], sep));
    } else {
      StartsWithConcat(parts[0], "");
      assert parts[0] + "" == parts[0];
    }
  }

  /** Text placed before a join: it is followed directly by the first part,
      and an appended part comes after the separator. */
  lemma JoinAfter(head: string, parts: seq<string>, next: string, sep: string)
    requires |parts| > 0
    ensures StartsWith(head + Join(parts, sep), head + parts[0])
    ensures |parts| == 1 ==> head + Join(parts, sep) == head + parts[0]
    ensures head + Join(parts + [next], sep) == head + Join(parts, sep) + sep + next
  {
    var body := Join(parts, sep);
    JoinStartsWithFirst(parts, sep);
    assert body == parts[0] + body[|parts[0]|..];
    assert head + body == (head + parts[0]) + body[|parts[0]|..];
    StartsWithConcat(head + parts[0], body[|parts[0]|..]);
    JoinAppend(parts, next, sep);
  }

  /** Prepending a character to the first part prepends it to the joined text. */
  lemma JoinExtendFirst(c: char, parts: seq<string>, sep: string)
    requires |parts| > 0
    ensures Join([[c] + parts[0]] + parts[1..], sep) == [c] + Join(parts, sep)
  {
    var p := [[c] + parts[0]] + parts[1..];
    if |parts| > 1 {
      assert p[1..] == parts[1..];
    }
  }

  /** `sep.join(s.split(sep)) == s`: splitting loses nothing. */
  lemma {:induction false} JoinSplit(s: string, sep: char)
    ensures Join(Split(s, sep), [sep]) == s
    decreases |s|
  {
    if |s| > 0 {
      var rest := Split(s[1..], sep);
      JoinSplit(s[1..], sep);
      assert s == [s[0]] + s[1..];
      if s[0] == sep {
        assert Split(s, sep) == [""] + rest;
      } else {
        assert Split(s, sep) == [[s[0]] + rest[0]] + rest[1..];
        JoinExtendFirst(s[0], rest, [sep]);
      }
    }
  }

  /** Splitting text that holds exactly one separator, after a separator-free
      head, gives that head and then the parts of the tail. */
  lemma {:induction false} SplitAtFirst(head: string, sep: char, tail: string)
    requires sep !in head
    ensures Split(head + [sep] + tail, sep) == [head] + Split(tail, sep)
    decreases |head|
  {
    var s := head + [sep] + tail;
    if |head| == 0 {
      assert s[1..] == tail;
    } else {
      assert s[1..] == head[1..] + [sep] + tail;
      SplitAtFirst(head[1..], sep, tail);
      assert [head[0]] + head[1..] == head;
    }
  }

  /** Text without the separator splits into itself alone. */
  lemma {:induction false} SplitWithoutSeparator(s: string, sep: char)
    requires sep !in s
    ensures Split(s, sep) == [s]
    decreases |s|
  {
    if |s| > 0 {
      SplitWithoutSeparator(s[1..], sep);
      assert [s[0]] + s[1..] == s;
    }
  }

  /** Python's `s.startswith(prefix)`. */
  predicate StartsWith(s: string, prefix: string) {
    |prefix| <= |s| && s[..|prefix|] == prefix
  }

  /** Text built as `prefix + rest` starts with `prefix`. */
  lemma StartsWithConcat(prefix: string, rest: string)
    ensures StartsWith(prefix + rest, prefix)
  {
    assert (prefix + rest)[..|prefix|] == prefix;
  }

  /** Texts whose first characters differ do not start with one another. */
  lemma FirstCharacterDiffers(s: string, prefix: string)
    requires |s| > 0 && |prefix| > 0 && s[0] != prefix[0]
    ensures !StartsWith(s, prefix)
  {
  }

  /** Python's `s.endswith(suffix)`. */
  predicate EndsWith(s: string, suffix: string) {
    |suffix| <= |s| && s[|s| - |suffix|..] == suffix
  }

  /** Python's `s * n`: `n` copies of `s`, none when `n <= 0`. */
  function Repeat(s: string, n: int): (r: string)
    ensures |r| == if n <= 0 then 0 else n * |s|
    decreases n
  {
    if n <= 0 then "" else s + Repeat(s, n - 1)
  }

  /** Python's normalisation of one slice bound against a length. */
  function ClampIndex(i: int, len: nat): (k: nat)
    ensures k <= len
    ensures 0 <= i <= len ==> k == i
    ensures i > len ==> k == len
    ensures i < 0 ==> k == if i + len < 0 then 0 else i + len
  {
    if i < 0 then (if i + len < 0 then 0 else i + len)
    else if i > len then len
    else i
  }

  /** Python's `s[i:j]`. */
  function Slice<T>(s: seq<T>, i: int, j: int): (r: seq<T>)
    ensures |r| <= |s|
    ensures 0 <= i <= j ==> r == s[Min(i, |s|)..Min(j, |s|)]
  {
    var a := ClampIndex(i, |s|);
    var b := ClampIndex(j, |s|);
    if a < b then s[a..b] else []
  }

  function Min(a: int, b: int): int {
    if a < b then a else b
  }
}
