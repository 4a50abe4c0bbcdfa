/** Shared vocabulary: the exceptions the modelled code raises, a failure-compatible
    Result, and the few Python string and list operations the core relies on
    (`str.startswith`, `in` on strings, `str.split`, `int()`, `str()` of an int,
    `os.path.join` and negative list indexing). */
module Common {

  /** One constructor per exception the modelled code can raise; the Python
      exception class is named in the comment. */
  datatype Error =
    | UnsupportedUnfreeze(n: int)              // ValueError in _freeze_plm_layers
    | IndexOutOfRange                          // IndexError (list index, split segment)
    | NotAnInteger(text: string)               // ValueError raised by int()
    | UnboundName                              // UnboundLocalError: a name used before assignment
    | AssertionFailed(what: string)            // AssertionError
    | NegativeDimension                        // RuntimeError: torch.ones with a negative size
    | MaskCacheMismatch(maskLen: int, expected: int) // backbone refuses a mask of the wrong length
    | CacheLayerMismatch(layers: int, expected: int) // backbone refuses a cache with the wrong layer count
    | UnknownDataset(name: string)             // ValueError in get_data_configs
    | InvalidSplitType                         // ValueError in DataModuleConfig
    | TypeMismatch                             // TypeError: comparing or hashing an unsuitable value
    | UnrecognizedArguments(keys: set<string>) // ValueError: leftover keyword arguments
    | FullFineTuneWithPreInference             // ValueError in PreInferSeqDataModuleConfig
    | UnsupportedPlmName                       // ValueError in SeqDataModule.__init__
    | MissingAttribute(name: string)           // AttributeError on the argument namespace
    | FileNotFound(path: string)               // FileNotFoundError from a read
    | PreInferenceFailed                       // RuntimeError in PreInferSeqDataModule.prepare_data

  datatype Option<T> = None | Some(value: T)

  datatype Result<T> = Success(value: T) | Failure(error: Error) {
    predicate IsFailure() { Failure? }
    function PropagateFailure<U>(): Result<U>
      requires Failure?
    {
      Failure(error)
    }
    function Extract(): T
      requires Success?
    {
      value
    }
  }

  /** The outcome of a Python call that returns nothing but may raise. */
  datatype Outcome = Pass | Fail(error: Error)

  // ---------------------------------------------------------------- strings

  /** `s.startswith(p)` */
  predicate StartsWith(s: string, p: string) {
    |p| <= |s| && s[..|p|] == p
  }

  /** `s.endswith(p)` */
  predicate EndsWith(s: string, p: string) {
    |p| <= |s| && s[|s| - |p|..] == p
  }

  /** `sub in s` for strings: some position of `s` starts an occurrence of `sub`. */
  predicate Contains(s: string, sub: string)
    decreases |s|
  {
    StartsWith(s, sub) || (|s| > 0 && Contains(s[1..], sub))
  }

  lemma {:induction false} ContainsSuffix(prefix: string, sub: string)
    ensures Contains(prefix + sub, sub)
    decreases |prefix|
  {
    if |prefix| == 0 {
      assert prefix + sub == sub;
    } else {
      assert (prefix + sub)[1..] == prefix[1..] + sub;
      ContainsSuffix(prefix[1..], sub);
    }
  }

  /** `s.split(sep)`: the pieces between occurrences of `sep`, always at least one. */
  function Split(s: string, sep: char): (r: seq<string>)
    ensures |r| >= 1
    decreases |s|
  {
    if |s| == 0 then [""]
    else
      var rest := Split(s[1..], sep);
      if s[0] == sep then [""] + rest
      else [[s[0]] + rest[0]] + rest[1..]
  }

  /** Splitting at the first separator: a separator-free head becomes the first piece. */
  lemma {:induction false} SplitAtSeparator(head: string, sep: char, tail: string)
    requires sep !in head
    ensures Split(head + [sep] + tail, sep) == [head] + Split(tail, sep)
    decreases |head|
  {
    if |head| == 0 {
      assert head + [sep] + tail == [sep] + tail;
      assert ([sep] + tail)[1..] == tail;
    } else {
      var s := head + [sep] + tail;
      assert s[0] == head[0];
      assert s[1..] == head[1..] + [sep] + tail;
      SplitAtSeparator(head[1..], sep, tail);
      assert [head[0]] + head[1..] == head;
    }
  }

  // ---------------------------------------------------------------- decimal numbers

  predicate IsDigit(c: char) { '0' <= c <= '9' }

  predicate AllDigits(s: string) {
    |s| > 0 && forall i :: 0 <= i < |s| ==> IsDigit(s[i])
  }

  /** The value of a non-empty run of decimal digits, most significant first. */
  function DigitsValue(s: string): (n: nat)
    requires AllDigits(s)
    decreases |s|
  {
    var last := (s[|s| - 1] as int) - ('0' as int);
    if |s| == 1 then last else DigitsValue(s[..|s| - 1]) * 10 + last
  }

  /** `int(s)` for an optional sign followed by ASCII digits; any other text is refused. */
  function ParseInt(s: string): (r: Option<int>)
    ensures r.Some? ==> |s| > 0
  {
    if |s| > 1 && (s[0] == '-' || s[0] == '+') && AllDigits(s[1..]) then
      var v: int := DigitsValue(s[1..]);
      Some(if s[0] == '-' then -v else v)
    else if AllDigits(s) then Some(DigitsValue(s))
    else None
  }

  function DigitChar(d: nat): char
    requires d < 10
  {
    ('0' as int + d) as char
  }

  /** `str(n)` for a natural number: its decimal digits without leading zeros. */
  function NatToString(n: nat): (s: string)
    ensures AllDigits(s)
    decreases n
  {
    if n < 10 then [DigitChar(n)] else NatToString(n / 10) + [DigitChar(n % 10)]
  }

  /** `str(i)` for any integer. */
  function IntToString(i: int): string {
    if i < 0 then "-" + NatToString(-i) else NatToString(i)
  }

  lemma {:induction false} NatToStringValue(n: nat)
    ensures DigitsValue(NatToString(n)) == n
    decreases n
  {
    if n >= 10 {
      var s := NatToString(n);
      NatToStringValue(n / 10);
      assert s[..|s| - 1] == NatToString(n / 10);
    }
  }

  /** Reading back what `str` printed gives the number again. */
  lemma ParseNatToString(n: nat)
    ensures ParseInt(NatToString(n)) == Some(n)
  {
    NatToStringValue(n);
  }

  /** The length of the run of digits that starts `s`. */
  function LeadingDigits(s: string): (n: nat)
    ensures n <= |s|
    decreases |s|
  {
    if |s| > 0 && IsDigit(s[0]) then 1 + LeadingDigits(s[1..]) else 0
  }

  /** A digit run ended by a non-digit is exactly the leading run. */
  lemma {:induction false} LeadingDigitsOfRun(a: string, tail: string)
    requires forall i :: 0 <= i < |a| ==> IsDigit(a[i])
    requires |tail| > 0 && !IsDigit(tail[0])
    ensures LeadingDigits(a + tail) == |a|
    decreases |a|
  {
    if |a| == 0 {
      assert a + tail == tail;
    } else {
      assert (a + tail)[1..] == a[1..] + tail;
      LeadingDigitsOfRun(a[1..], tail);
    }
  }

  lemma NoSeparatorInDigits(s: string, sep: char)
    requires AllDigits(s) && !IsDigit(sep)
    ensures sep !in s
  {
  }

  /** A piece without the separator is not split at all. */
  lemma {:induction false} SplitNoSeparator(s: string, sep: char)
    requires sep !in s
    ensures Split(s, sep) == [s]
    decreases |s|
  {
    if |s| > 0 {
      SplitNoSeparator(s[1..], sep);
      assert [s[0]] + s[1..] == s;
    }
  }

  /** `sep.join(pieces)` */
  function Join(pieces: seq<string>, sep: char): string
    requires |pieces| >= 1
    decreases |pieces|
  {
    if |pieces| == 1 then pieces[0] else pieces[0] + [sep] + Join(pieces[1..], sep)
  }

  /** Splitting undoes joining when no piece holds the separator. */
  lemma {:induction false} SplitJoin(pieces: seq<string>, sep: char)
    requires |pieces| >= 1
    requires forall i :: 0 <= i < |pieces| ==> sep !in pieces[i]
    ensures Split(Join(pieces, sep), sep) == pieces
    decreases |pieces|
  {
    if |pieces| == 1 {
      SplitNoSeparator(pieces[0], sep);
    } else {
      SplitJoin(pieces[1..], sep);
      SplitAtSeparator(pieces[0], sep, Join(pieces[1..], sep));
      assert [pieces[0]] + pieces[1..] == pieces;
    }
  }

  /** Removing a common suffix. */
  lemma DropCommonSuffix(a: string, b: string, suffix: string)
    requires a + suffix == b + suffix
    ensures a == b
  {
    assert a == (a + suffix)[..|a|];
    assert b == (b + suffix)[..|b|];
  }

  /** `str(i)` is a sign and digits only. */
  predicate SignedDigits(s: string) {
    |s| > 0 && (AllDigits(s) || (s[0] == '-' && AllDigits(s[1..])))
  }

  lemma IntToStringSigned(i: int)
    ensures SignedDigits(IntToString(i))
  {
    if i < 0 {
      assert IntToString(i)[1..] == NatToString(-i);
    }
  }

  /** `str(i)` starts with a minus sign exactly for negative `i`. */
  lemma IntToStringSign(i: int)
    ensures IntToString(i)[0] == '-' <==> i < 0
  {
    if i >= 0 {
      assert IsDigit(NatToString(i)[0]);
    }
  }

  /** Distinct integers print differently. */
  lemma IntToStringInjective(i: int, j: int)
    requires IntToString(i) == IntToString(j)
    ensures i == j
  {
    IntToStringSign(i);
    IntToStringSign(j);
    if i < 0 {
      DropCommonPrefix("-", NatToString(-i), NatToString(-j));
      NatToStringValue(-i);
      NatToStringValue(-j);
    } else {
      NatToStringValue(i);
      NatToStringValue(j);
    }
  }

  lemma DropCommonPrefix(prefix: string, a: string, b: string)
    requires prefix + a == prefix + b
    ensures a == b
  {
    assert a == (prefix + a)[|prefix|..];
    assert b == (prefix + b)[|prefix|..];
  }

  // ---------------------------------------------------------------- lists and paths

  /** `xs[k]` with Python's negative indexing; None where Python raises IndexError. */
  function PyIndex<T>(xs: seq<T>, k: int): (r: Option<T>)
    ensures r.Some? <==> -|xs| <= k < |xs|
    ensures 0 <= k < |xs| ==> r == Some(xs[k])
    ensures -|xs| <= k < 0 ==> r == Some(xs[|xs| + k])
  {
    if 0 <= k < |xs| then Some(xs[k])
    else if -|xs| <= k < 0 then Some(xs[|xs| + k])
    else None
  }

  /** `os.path.join(a, b)` on POSIX: an absolute `b` replaces `a`; otherwise one `/`
      separates them unless `a` is empty or already ends with one. */
  function PathJoin(a: string, b: string): (r: string)
    ensures !StartsWith(b, "/") && EndsWith(a, "/") ==> r == a + b
  {
    if StartsWith(b, "/") then b
    else if a == "" || EndsWith(a, "/") then a + b
    else a + "/" + b
  }

  function Ones(n: nat): (m: seq<int>)
    ensures |m| == n && forall i :: 0 <= i < n ==> m[i] == 1
  {
    seq(n, _ => 1)
  }
}
