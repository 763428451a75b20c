/**
 * Vocabulary shared by the controllers: Go's zero-value map reads, the
 * small parts of the Go standard library they call (strconv.ParseBool,
 * strconv.Atoi, strings.Contains, strings.Split, strings.TrimSpace), the
 * Kubernetes condition record, and a filter over sequences.
 *
 * A Go map that is nil reads exactly like an empty one, and every write in
 * the controllers first replaces a nil map by an empty one, so a nil map is
 * modelled as the empty Dafny map.
 */
module Kube {

  datatype Option<+T> = None | Some(value: T)

  type StringMap = map<string, string>

  /** Time instants and durations, in nanoseconds. */
  const Second: int := 1_000_000_000
  const Hour: int := 3600 * Second

  /** Reading `m[key]` in Go: a missing key yields the zero value "". */
  function Lookup(m: StringMap, key: string): string
  {
    if key in m then m[key] else ""
  }

  /** The outcome of a client Get: the object, a NotFound error, or any other error. */
  datatype Fetch<T> = Found(value: T) | NotFound | FetchFailed

  /** A status condition (`Type`, `Status`) of a pod or a job. */
  datatype Condition = Condition(condType: string, status: string)

  /** The namespaces the pod labeller and the auto-scaler never touch. */
  const SystemNamespaces: seq<string> := ["kube-system", "kube-public", "kube-node-lease", "local-path-storage"]

  predicate IsSystemNamespace(namespace: string)
  {
    namespace in SystemNamespaces
  }

  // ---------------------------------------------------------------------
  // strconv.ParseBool

  const TrueSpellings: set<string> := {"1", "t", "T", "TRUE", "true", "True"}
  const FalseSpellings: set<string> := {"0", "f", "F", "FALSE", "false", "False"}

  /** strconv.ParseBool: None stands for the syntax error. */
  function ParseBool(s: string): (r: Option<bool>)
    ensures r.None? <==> s !in TrueSpellings && s !in FalseSpellings
    ensures r == Some(true) ==> s in TrueSpellings
  {
    if s in TrueSpellings then Some(true)
    else if s in FalseSpellings then Some(false)
    else None
  }

  // ---------------------------------------------------------------------
  // strconv.Atoi on a 64-bit platform

  const MinInt64: int := -0x8000_0000_0000_0000
  const MaxInt64: int := 0x7fff_ffff_ffff_ffff

  predicate IsDigit(c: char)
  {
    '0' <= c <= '9'
  }

  predicate AllDigits(s: string)
  {
    forall k :: 0 <= k < |s| ==> IsDigit(s[k])
  }

  /** The value of a string of decimal digits, most significant first. */
  function DigitsValue(s: string): nat
    requires AllDigits(s)
  {
    if |s| == 0 then 0
    else DigitsValue(s[..|s| - 1]) * 10 + (s[|s| - 1] as int - '0' as int)
  }

  /** The syntax Atoi accepts: an optional sign followed by at least one digit. */
  predicate AtoiSyntax(s: string)
  {
    if |s| > 0 && (s[0] == '+' || s[0] == '-') then |s| > 1 && AllDigits(s[1..])
    else |s| > 0 && AllDigits(s)
  }

  /** The value Atoi computes for well-formed text, before the range check. */
  function SignedValue(s: string): int
    requires AtoiSyntax(s)
  {
    if s[0] == '-' then -(DigitsValue(s[1..]) as int)
    else if s[0] == '+' then DigitsValue(s[1..])
    else DigitsValue(s)
  }

  /** strconv.Atoi: None stands for the syntax error and the range error. */
  function Atoi(s: string): (r: Option<int>)
    ensures r.Some? ==> MinInt64 <= r.value <= MaxInt64
    ensures r.None? <==> !AtoiSyntax(s) || SignedValue(s) < MinInt64 || MaxInt64 < SignedValue(s)
  {
    if !AtoiSyntax(s) then None
    else if SignedValue(s) < MinInt64 || MaxInt64 < SignedValue(s) then None
    else Some(SignedValue(s))
  }

  const MaxUint64: int := 0xffff_ffff_ffff_ffff

  /** The text after one optional leading sign. */
  function Unsigned(s: string): (u: string)
    ensures |u| <= |s|
  {
    if |s| > 0 && (s[0] == '+' || s[0] == '-') then s[1..] else s
  }

  /** The number of digits at the start of `s`. */
  function DigitRun(s: string): (n: nat)
    ensures n <= |s| && AllDigits(s[..n])
    ensures n < |s| ==> !IsDigit(s[n])
    decreases |s|
  {
    if |s| == 0 || !IsDigit(s[0]) then 0
    else
      var m := DigitRun(s[1..]);
      assert s[..1 + m] == [s[0]] + s[1..][..m];
      1 + m
  }

  /**
   * ParseUint gives up with a range error at the first digit that takes the
   * value read so far past 2^64-1, before it looks at anything after it; the
   * value of the leading digits only grows, so this happens exactly when
   * the whole leading digit run exceeds 2^64-1.
   */
  predicate UintOverflow(s: string)
  {
    var u := Unsigned(s);
    DigitsValue(u[..DigitRun(u)]) > MaxUint64
  }

  /**
   * The integer Atoi returns beside its error: the nearest 64-bit bound
   * after a range error, and 0 after a syntax error met before the digits
   * overflowed.
   */
  function AtoiValue(s: string): (r: int)
    ensures Atoi(s).Some? ==> r == Atoi(s).value
    ensures UintOverflow(s) ==> r == (if |s| > 0 && s[0] == '-' then MinInt64 else MaxInt64)
    ensures !UintOverflow(s) && !AtoiSyntax(s) ==> r == 0
    ensures AtoiSyntax(s) && SignedValue(s) < MinInt64 ==> r == MinInt64
    ensures AtoiSyntax(s) && MaxInt64 < SignedValue(s) ==> r == MaxInt64
    ensures MinInt64 <= r <= MaxInt64
  {
    if AtoiSyntax(s) then
      var u := Unsigned(s);
      assert DigitRun(u) == |u| && u[..DigitRun(u)] == u;
      if SignedValue(s) < MinInt64 then MinInt64
      else if MaxInt64 < SignedValue(s) then MaxInt64
      else SignedValue(s)
    else if UintOverflow(s) then
      if |s| > 0 && s[0] == '-' then MinInt64 else MaxInt64
    else 0
  }

  /** The leading digit run ends where the digits do. */
  lemma {:induction false} DigitRunStopsAt(digits: string, rest: string)
    requires AllDigits(digits)
    requires |rest| > 0 && !IsDigit(rest[0])
    ensures DigitRun(digits + rest) == |digits|
    decreases |digits|
  {
    if |digits| > 0 {
      assert (digits + rest)[1..] == digits[1..] + rest;
      DigitRunStopsAt(digits[1..], rest);
    }
  }

  /** Unsigned digits past 2^64-1 followed by a non-digit overflow, and are not valid Atoi syntax. */
  lemma OverflowingDigits(digits: string, rest: string)
    requires AllDigits(digits) && DigitsValue(digits) > MaxUint64
    requires |rest| > 0 && !IsDigit(rest[0])
    ensures Unsigned(digits + rest) == digits + rest
    ensures UintOverflow(digits + rest)
    ensures !AllDigits(digits + rest)
  {
    assert |digits| > 0;
    var s := digits + rest;
    assert s[0] == digits[0] && IsDigit(digits[0]);
    DigitRunStopsAt(digits, rest);
    assert s[..|digits|] == digits;
    assert s[|digits|] == rest[0];
  }

  /**
   * Digits past 2^64-1 followed by anything that is not a digit: Atoi
   * reports an error, yet the value beside it is the bound of the sign,
   * not 0.
   */
  lemma OverflowBeforeJunk(digits: string, rest: string)
    requires AllDigits(digits) && DigitsValue(digits) > MaxUint64
    requires |rest| > 0 && !IsDigit(rest[0])
    ensures Atoi(digits + rest).None? && AtoiValue(digits + rest) == MaxInt64
    ensures Atoi("-" + (digits + rest)).None? && AtoiValue("-" + (digits + rest)) == MinInt64
  {
    var s := digits + rest;
    OverflowingDigits(digits, rest);
    var t := "-" + s;
    assert t[1..] == s;
  }

  /** strconv.Itoa restricted to non-negative numbers. */
  function NatToDecimal(n: nat): (s: string)
    ensures |s| > 0 && AllDigits(s)
  {
    if n < 10 then [('0' as int + n) as char]
    else NatToDecimal(n / 10) + [('0' as int + n % 10) as char]
  }

  lemma {:induction false} DecimalValue(n: nat)
    ensures DigitsValue(NatToDecimal(n)) == n
  {
    var s := NatToDecimal(n);
    if n >= 10 {
      DecimalValue(n / 10);
      assert s[..|s| - 1] == NatToDecimal(n / 10);
    }
  }

  /** Atoi reads back every 64-bit integer written in decimal. */
  lemma AtoiReadsDecimal(n: int)
    requires MinInt64 <= n <= MaxInt64
    ensures n >= 0 ==> Atoi(NatToDecimal(n)) == Some(n)
    ensures n < 0 ==> Atoi("-" + NatToDecimal(-n)) == Some(n)
  {
    if n >= 0 {
      DecimalValue(n);
    } else {
      var s := "-" + NatToDecimal(-n);
      DecimalValue(-n);
      assert s[1..] == NatToDecimal(-n);
    }
  }

  /** Go's int32(x): keeps the low 32 bits, read as two's complement. */
  function ToInt32(x: int): (r: int)
    ensures -0x8000_0000 <= r < 0x8000_0000
    ensures -0x8000_0000 <= x < 0x8000_0000 ==> r == x
    ensures (r - x) % 0x1_0000_0000 == 0
  {
    var m := x % 0x1_0000_0000;
    if m < 0x8000_0000 then m else m - 0x1_0000_0000
  }

  /** Go's int64 arithmetic: keeps the low 64 bits, read as two's complement. */
  function ToInt64(x: int): (r: int)
    ensures MinInt64 <= r <= MaxInt64
    ensures MinInt64 <= x <= MaxInt64 ==> r == x
    ensures (r - x) % 0x1_0000_0000_0000_0000 == 0
  {
    var m := x % 0x1_0000_0000_0000_0000;
    if m <= MaxInt64 then m else m - 0x1_0000_0000_0000_0000
  }

  /** Go's `/` on integers, which truncates toward zero. */
  function Quo(a: int, b: int): (r: int)
    requires b > 0
    ensures a >= 0 ==> 0 <= a - r * b < b
    ensures a < 0 ==> -b < a - r * b <= 0
  {
    if a >= 0 then a / b else -((-a) / b)
  }

  // ---------------------------------------------------------------------
  // strings.Contains

  /** `sub` occurs in `s` starting at index `i`. */
  predicate OccursAt(s: string, sub: string, i: int)
  {
    0 <= i <= |s| - |sub| && s[i..i + |sub|] == sub
  }

  /** strings.Contains(s, sub), scanning from the left. */
  function Contains(s: string, sub: string): bool
    decreases |s|
  {
    |sub| <= |s| && (s[..|sub|] == sub || Contains(s[1..], sub))
  }

  lemma {:induction false} ContainsMeansOccurs(s: string, sub: string)
    ensures Contains(s, sub) <==> exists i :: OccursAt(s, sub, i)
    decreases |s|
  {
    if |sub| <= |s| && s[..|sub|] != sub {
      ContainsMeansOccurs(s[1..], sub);
      if Contains(s[1..], sub) {
        var i :| OccursAt(s[1..], sub, i);
        assert s[i + 1..i + 1 + |sub|] == s[1..][i..i + |sub|];
        assert OccursAt(s, sub, i + 1);
      }
      if i :| OccursAt(s, sub, i) {
        assert i != 0;
        assert s[1..][i - 1..i - 1 + |sub|] == s[i..i + |sub|];
        assert OccursAt(s[1..], sub, i - 1);
      }
    } else if |sub| <= |s| {
      assert OccursAt(s, sub, 0);
    }
  }

  // ---------------------------------------------------------------------
  // strings.Split and strings.TrimSpace

  /** The number of occurrences of `c` in `s`. */
  function Count(s: string, c: char): nat
  {
    if |s| == 0 then 0 else Count(s[..|s| - 1], c) + (if s[|s| - 1] == c then 1 else 0)
  }

  /** strings.Split(s, sep) for a one-character separator. */
  function Split(s: string, sep: char): (r: seq<string>)
    ensures |r| > 0
  {
    if |s| == 0 then [""]
    else
      var front := Split(s[..|s| - 1], sep);
      if s[|s| - 1] == sep then front + [""]
      else front[..|front| - 1] + [front[|front| - 1] + [s[|s| - 1]]]
  }

  /** strings.Join(parts, sep) for a one-character separator. */
  function Join(parts: seq<string>, sep: char): string
    requires |parts| > 0
  {
    if |parts| == 1 then parts[0] else Join(parts[..|parts| - 1], sep) + [sep] + parts[|parts| - 1]
  }

  /** strings.Join with a separator of any length (Join above is the one-character case). */
  function JoinWith(parts: seq<string>, sep: string): (r: string)
    ensures |parts| == 1 ==> r == parts[0]
    ensures |parts| > 0 ==> |r| >= |parts[0]|
  {
    if |parts| == 0 then ""
    else if |parts| == 1 then parts[0]
    else JoinWith(parts[..|parts| - 1], sep) + sep + parts[|parts| - 1]
  }

  /** Split yields one piece more than there are separators, and no piece holds a separator. */
  lemma {:induction false} SplitPieces(s: string, sep: char)
    ensures |Split(s, sep)| == Count(s, sep) + 1
    ensures forall k :: 0 <= k < |Split(s, sep)| ==> sep !in Split(s, sep)[k]
  {
    if |s| > 0 {
      SplitPieces(s[..|s| - 1], sep);
    }
  }

  /** Text without the separator splits into itself alone. */
  lemma {:induction false} SplitWithoutSeparator(s: string, sep: char)
    requires sep !in s
    ensures Split(s, sep) == [s]
  {
    if |s| > 0 {
      var init := s[..|s| - 1];
      assert sep !in init by { assert forall c :: c in init ==> c in s; }
      SplitWithoutSeparator(init, sep);
      assert init + [s[|s| - 1]] == s;
    }
  }

  /** Joining the pieces with the separator gives the input back. */
  lemma {:induction false} JoinSplit(s: string, sep: char)
    ensures Join(Split(s, sep), sep) == s
  {
    if |s| > 0 {
      var init := s[..|s| - 1];
      var front := Split(init, sep);
      JoinSplit(init, sep);
      if s[|s| - 1] != sep {
        var last := front[|front| - 1];
        if |front| == 1 {
          assert s == init + [s[|s| - 1]];
        } else {
          var pre := front[..|front| - 1];
          assert Join(front, sep) == Join(pre, sep) + [sep] + last;
          assert s == init + [s[|s| - 1]];
        }
      }
    }
  }

  /** The ASCII white space that strings.TrimSpace removes. */
  predicate IsSpace(c: char)
  {
    c == ' ' || c == '\t' || c == '\n' || c == '\r' || c as int == 11 || c as int == 12
  }

  function TrimLeft(s: string): (r: string)
    ensures |r| <= |s|
  {
    if |s| > 0 && IsSpace(s[0]) then TrimLeft(s[1..]) else s
  }

  function TrimRight(s: string): (r: string)
    ensures |r| <= |s|
  {
    if |s| > 0 && IsSpace(s[|s| - 1]) then TrimRight(s[..|s| - 1]) else s
  }

  /** TrimLeft drops exactly the leading white space. */
  lemma {:induction false} TrimLeftShape(s: string)
    ensures TrimLeft(s) == s[|s| - |TrimLeft(s)|..]
    ensures |TrimLeft(s)| > 0 ==> !IsSpace(TrimLeft(s)[0])
    ensures forall k :: 0 <= k < |s| - |TrimLeft(s)| ==> IsSpace(s[k])
  {
    if |s| > 0 && IsSpace(s[0]) {
      TrimLeftShape(s[1..]);
    }
  }

  /** TrimRight drops exactly the trailing white space. */
  lemma {:induction false} TrimRightShape(s: string)
    ensures TrimRight(s) == s[..|TrimRight(s)|]
    ensures |TrimRight(s)| > 0 ==> !IsSpace(TrimRight(s)[|TrimRight(s)| - 1])
    ensures forall k :: |TrimRight(s)| <= k < |s| ==> IsSpace(s[k])
  {
    if |s| > 0 && IsSpace(s[|s| - 1]) {
      TrimRightShape(s[..|s| - 1]);
    }
  }

  /**
   * strings.TrimSpace: the longest slice of `s` that neither starts nor
   * ends with white space, obtained by dropping white space only.
   */
  function TrimSpace(s: string): (r: string)
    ensures |r| <= |s|
  {
    TrimRight(TrimLeft(s))
  }

  /** TrimSpace yields a slice of its input that neither starts nor ends with white space. */
  lemma TrimSpaceShape(s: string)
    ensures exists i :: OccursAt(s, TrimSpace(s), i)
    ensures |TrimSpace(s)| > 0 ==> !IsSpace(TrimSpace(s)[0]) && !IsSpace(TrimSpace(s)[|TrimSpace(s)| - 1])
  {
    var l := TrimLeft(s);
    var r := TrimRight(l);
    TrimLeftShape(s);
    TrimRightShape(l);
    assert r == TrimSpace(s);
    assert OccursAt(s, TrimSpace(s), |s| - |l|);
    if |r| > 0 {
      assert r[0] == l[..|r|][0] == l[0];
    }
  }

  lemma TrimSpaceIdempotent(s: string)
    ensures TrimSpace(TrimSpace(s)) == TrimSpace(s)
  {
    var t := TrimSpace(s);
    TrimSpaceShape(s);
    if |t| > 0 {
      assert TrimLeft(t) == t;
      assert TrimRight(t) == t;
    }
  }

  // ---------------------------------------------------------------------
  // Filtering a sequence, the shape of every `append if` loop in the controllers

  /** The elements of `s` that satisfy `keep`, in their original order. */
  function Filter<T>(s: seq<T>, keep: T -> bool): (r: seq<T>)
    ensures |r| <= |s|
  {
    if |s| == 0 then []
    else Filter(s[..|s| - 1], keep) + (if keep(s[|s| - 1]) then [s[|s| - 1]] else [])
  }

  /** Filter keeps exactly the elements that satisfy the predicate. */
  lemma {:induction false} FilterMembers<T>(s: seq<T>, keep: T -> bool)
    ensures forall x :: x in Filter(s, keep) <==> x in s && keep(x)
  {
    if |s| > 0 {
      FilterMembers(s[..|s| - 1], keep);
      assert s == s[..|s| - 1] + [s[|s| - 1]];
    }
  }

  /** Filter keeps the original order: filtering a concatenation concatenates the results. */
  lemma {:induction false} FilterAppend<T>(a: seq<T>, b: seq<T>, keep: T -> bool)
    ensures Filter(a + b, keep) == Filter(a, keep) + Filter(b, keep)
    decreases |b|
  {
    if |b| > 0 {
      var b' := b[..|b| - 1];
      assert (a + b)[..|a + b| - 1] == a + b';
      FilterAppend(a, b', keep);
    } else {
      assert a + b == a;
    }
  }

  /** The loop `for _, x := range s { if keep(x) { r = append(r, x) } }`. */
  method Select<T>(s: seq<T>, keep: T -> bool) returns (r: seq<T>)
    ensures r == Filter(s, keep)
  {
    r := [];
    var i := 0;
    while i < |s|
      invariant 0 <= i <= |s|
      invariant r == Filter(s[..i], keep)
    {
      assert s[..i + 1][..i] == s[..i];
      if keep(s[i]) {
        r := r + [s[i]];
      }
      i := i + 1;
    }
    assert s[..|s|] == s;
  }
}
