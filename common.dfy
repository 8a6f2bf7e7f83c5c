/**
 * Shared vocabulary of the model: optional and failing results, bytes,
 * the parts of Python's string behaviour the scripts rely on (`in` on
 * strings, `lower`, `strip`, `split`), a JSON value type for the decoded
 * post files, batching by `range(0, len(xs), n)` slices, and sorting.
 */
module Common {

  datatype Option<+T> = None | Some(value: T)

  /** A step that either produced a value or raised. */
  datatype Result<+T> = Ok(value: T) | Err(error: string)

  newtype byte = x: int | 0 <= x < 256

  // ---------------------------------------------------------------------
  // Characters and strings
  // ---------------------------------------------------------------------

  /** Python's `str.isspace()` (ASCII controls, separators and the Unicode spaces). */
  predicate IsSpace(c: char)
  {
    || ('\t' <= c <= '\r')
    || ('\U{001C}' <= c <= '\U{001F}')
    || c == ' ' || c == '\U{0085}' || c == '\U{00A0}' || c == '\U{1680}'
    || ('\U{2000}' <= c <= '\U{200A}')
    || c == '\U{2028}' || c == '\U{2029}' || c == '\U{202F}' || c == '\U{205F}' || c == '\U{3000}'
  }

  function LowerChar(c: char): (r: char)
    ensures 'A' <= c <= 'Z' ==> r != c && 'a' <= r <= 'z'
    ensures !('A' <= c <= 'Z') ==> r == c
  {
    if 'A' <= c <= 'Z' then (c as int + 32) as char else c
  }

  lemma AppendAssoc<T>(a: seq<T>, b: seq<T>, c: seq<T>)
    ensures a + (b + c) == (a + b) + c
  {
  }

  /** `s.lower()` restricted to ASCII letters. */
  function Lower(s: string): (r: string)
    ensures |r| == |s|
    ensures forall i :: 0 <= i < |s| ==> r[i] == LowerChar(s[i])
  {
    if s == [] then [] else [LowerChar(s[0])] + Lower(s[1..])
  }

  /** Lower-casing commutes with taking a slice. */
  lemma LowerSlice(s: string, i: nat, j: nat)
    requires i <= j <= |s|
    ensures Lower(s)[i..j] == Lower(s[i..j])
  {
    var t := s[i..j];
    var a, b := Lower(s)[i..j], Lower(t);
    forall k | 0 <= k < |a| ensures a[k] == b[k] {
      assert t[k] == s[i + k];
    }
  }

  lemma {:induction false} LowerIdempotent(s: string)
    ensures Lower(Lower(s)) == Lower(s)
  {
    var l := Lower(s);
    assert forall i :: 0 <= i < |s| ==> Lower(l)[i] == l[i];
  }

  lemma LowerConcat(a: string, b: string)
    ensures Lower(a + b) == Lower(a) + Lower(b)
  {
    assert forall i :: 0 <= i < |a + b| ==> Lower(a + b)[i] == (Lower(a) + Lower(b))[i];
  }

  /** Text without capital letters is its own lower case. */
  lemma LowerKeeps(s: string)
    requires forall c :: c in s ==> !('A' <= c <= 'Z')
    ensures Lower(s) == s
  {
    forall i | 0 <= i < |s| ensures Lower(s)[i] == s[i] {
      assert s[i] in s;
    }
  }

  function TrimStart(s: string): string
  {
    if s != [] && IsSpace(s[0]) then TrimStart(s[1..]) else s
  }

  function TrimEnd(s: string): string
  {
    if s != [] && IsSpace(s[|s| - 1]) then TrimEnd(s[..|s| - 1]) else s
  }

  /** `lstrip` removes exactly the leading white space. */
  lemma {:induction false} TrimStartFacts(s: string)
    ensures |TrimStart(s)| <= |s| && TrimStart(s) == s[|s| - |TrimStart(s)|..]
    ensures TrimStart(s) == [] || !IsSpace(TrimStart(s)[0])
    ensures forall i :: 0 <= i < |s| - |TrimStart(s)| ==> IsSpace(s[i])
  {
    if s != [] && IsSpace(s[0]) {
      TrimStartFacts(s[1..]);
      forall i | 0 <= i < |s| - |TrimStart(s)| ensures IsSpace(s[i]) {
        if i > 0 { assert s[i] == s[1..][i - 1]; }
      }
    }
  }

  /** `rstrip` removes exactly the trailing white space. */
  lemma {:induction false} TrimEndFacts(s: string)
    ensures |TrimEnd(s)| <= |s| && TrimEnd(s) == s[..|TrimEnd(s)|]
    ensures TrimEnd(s) == [] || !IsSpace(TrimEnd(s)[|TrimEnd(s)| - 1])
    ensures forall i :: |TrimEnd(s)| <= i < |s| ==> IsSpace(s[i])
  {
    if s != [] && IsSpace(s[|s| - 1]) {
      TrimEndFacts(s[..|s| - 1]);
      forall i | |TrimEnd(s)| <= i < |s| ensures IsSpace(s[i]) {
        if i < |s| - 1 { assert s[i] == s[..|s| - 1][i]; }
      }
    }
  }

  /** `s.strip()`: the longest slice of `s` with no surrounding white space. */
  function Strip(s: string): (r: string)
  {
    TrimEnd(TrimStart(s))
  }

  /** The stripped text is a slice of the input with no white space at either end, and it is
      empty exactly when the input is all white space. */
  lemma StripIsInnerSlice(s: string)
    ensures Contains(s, Strip(s))
    ensures Strip(s) == [] || (!IsSpace(Strip(s)[0]) && !IsSpace(Strip(s)[|Strip(s)| - 1]))
    ensures Strip(s) == [] <==> forall k :: 0 <= k < |s| ==> IsSpace(s[k])
  {
    var t := TrimStart(s);
    var r := TrimEnd(t);
    TrimStartFacts(s);
    TrimEndFacts(t);
    var i := |s| - |t|;
    assert t == s[i..];
    assert r == t[..|r|];
    assert r == s[i..i + |r|];
    assert OccursAt(s, r, i);
    ContainsIffOccurs(s, r);
    if r != [] {
      assert s[i] == r[0];
    }
  }

  lemma StripChars(s: string)
    ensures forall c :: c in Strip(s) ==> c in s
  {
    var t := TrimStart(s);
    var r := TrimEnd(t);
    TrimStartFacts(s);
    TrimEndFacts(t);
    var i := |s| - |t|;
    assert t == s[i..];
    assert r == t[..|r|];
    forall c | c in r ensures c in s {
      var k :| 0 <= k < |r| && r[k] == c;
      assert s[i + k] == c;
    }
  }

  lemma StripIdempotent(s: string)
    ensures Strip(Strip(s)) == Strip(s)
  {
    var r := Strip(s);
    StripIsInnerSlice(s);
    assert TrimStart(r) == r;
    TrimStartFacts(r);
    assert TrimEnd(r) == r;
  }

  /** `pat in s` on Python strings. */
  predicate Contains(s: string, pat: string)
    decreases |s|
  {
    |pat| <= |s| && (s[..|pat|] == pat || Contains(s[1..], pat))
  }

  ghost predicate OccursAt(s: string, pat: string, i: int)
  {
    0 <= i && i + |pat| <= |s| && s[i..i + |pat|] == pat
  }

  lemma {:induction false} ContainsIffOccurs(s: string, pat: string)
    ensures Contains(s, pat) <==> exists i :: OccursAt(s, pat, i)
    decreases |s|
  {
    if |pat| <= |s| {
      if s[..|pat|] == pat {
        assert OccursAt(s, pat, 0);
      } else {
        ContainsIffOccurs(s[1..], pat);
        forall i | OccursAt(s[1..], pat, i) ensures OccursAt(s, pat, i + 1) {
          assert s[1..][i..i + |pat|] == s[i + 1..i + 1 + |pat|];
        }
        forall i | 0 < i && OccursAt(s, pat, i) ensures OccursAt(s[1..], pat, i - 1) {
          assert s[1..][i - 1..i - 1 + |pat|] == s[i..i + |pat|];
        }
      }
    }
  }

  lemma ContainsInConcat(a: string, b: string, pat: string)
    requires Contains(a, pat)
    ensures Contains(a + b, pat) && Contains(b + a, pat)
  {
    ContainsIffOccurs(a, pat);
    ContainsIffOccurs(a + b, pat);
    ContainsIffOccurs(b + a, pat);
    var i :| OccursAt(a, pat, i);
    assert (a + b)[i..i + |pat|] == a[i..i + |pat|];
    assert OccursAt(a + b, pat, i);
    assert (b + a)[|b| + i..|b| + i + |pat|] == a[i..i + |pat|];
    assert OccursAt(b + a, pat, |b| + i);
  }

  predicate StartsWith(s: string, prefix: string)
  {
    |prefix| <= |s| && s[..|prefix|] == prefix
  }

  predicate EndsWith(s: string, suffix: string)
  {
    |suffix| <= |s| && s[|s| - |suffix|..] == suffix
  }

  /** Index of the first occurrence of `c` in `s`, or `|s|` when there is none. */
  function IndexOf(s: string, c: char): (i: nat)
    ensures i <= |s|
    ensures i < |s| ==> s[i] == c
    ensures forall k :: 0 <= k < i ==> s[k] != c
  {
    if s == [] then 0 else if s[0] == c then 0 else 1 + IndexOf(s[1..], c)
  }

  /** Index of the first character of `s` that is in `cs`, or `|s|`. */
  function IndexOfAny(s: string, cs: set<char>): (i: nat)
    ensures i <= |s|
    ensures i < |s| ==> s[i] in cs
    ensures forall k :: 0 <= k < i ==> s[k] !in cs
  {
    if s == [] then 0 else if s[0] in cs then 0 else 1 + IndexOfAny(s[1..], cs)
  }

  /** `s.split(c)[0]`: the text before the first `c`. */
  function BeforeFirst(s: string, c: char): string
  {
    s[..IndexOf(s, c)]
  }

  /** The text before the first `c` holds no `c`, and is all of `s` or is followed by `c`. */
  lemma BeforeFirstFacts(s: string, c: char)
    ensures c !in BeforeFirst(s, c) && StartsWith(s, BeforeFirst(s, c))
    ensures BeforeFirst(s, c) == s || (|BeforeFirst(s, c)| < |s| && s[|BeforeFirst(s, c)|] == c)
  {
    var i := IndexOf(s, c);
    assert forall k :: 0 <= k < i ==> s[..i][k] == s[k];
  }

  /** `s.split(c)[-1]`: the text after the last `c` (all of `s` when there is none). */
  function AfterLast(s: string, c: char): (r: string)
    ensures c !in r && EndsWith(s, r)
    ensures r == s || (|r| < |s| && s[|s| - |r| - 1] == c)
    decreases |s|
  {
    if s == [] then []
    else if s[|s| - 1] == c then []
    else AfterLast(s[..|s| - 1], c) + [s[|s| - 1]]
  }

  /** The text after the last `c` of `p + s`, where `p` ends with `c` and `s` holds none. */
  lemma {:induction false} AfterLastOfSuffix(p: string, s: string, c: char)
    requires p != [] && p[|p| - 1] == c && c !in s
    ensures AfterLast(p + s, c) == s
    decreases |s|
  {
    if s == [] {
      assert p + s == p;
    } else {
      var t := p + s;
      assert t[..|t| - 1] == p + s[..|s| - 1];
      assert t[|t| - 1] == s[|s| - 1];
      AfterLastOfSuffix(p, s[..|s| - 1], c);
      assert s[..|s| - 1] + [s[|s| - 1]] == s;
    }
  }

  /** `s.rstrip(c)` for a single character. */
  function RStripChar(s: string, c: char): (r: string)
    ensures StartsWith(s, r) && (r == [] || r[|r| - 1] != c)
    ensures forall k :: |r| <= k < |s| ==> s[k] == c
  {
    if s != [] && s[|s| - 1] == c then RStripChar(s[..|s| - 1], c) else s
  }

  // ---------------------------------------------------------------------
  // Integers as decimal text
  // ---------------------------------------------------------------------

  predicate IsDigit(c: char)
  {
    '0' <= c <= '9'
  }

  predicate AllDigits(s: string)
  {
    forall i :: 0 <= i < |s| ==> IsDigit(s[i])
  }

  /** The value of a run of decimal digits, most significant first. */
  function DigitsValue(s: string): (n: nat)
    requires AllDigits(s)
    decreases |s|
  {
    if s == [] then 0 else DigitsValue(s[..|s| - 1]) * 10 + (s[|s| - 1] as int - '0' as int)
  }

  /** Python's `int(s)` on text: surrounding white space, an optional sign, then ASCII digits;
      anything else raises (None). */
  function ParseInt(s: string): (r: Option<int>)
    ensures r.Some? ==> Strip(s) != []
  {
    var t := Strip(s);
    if |t| > 1 && (t[0] == '-' || t[0] == '+') && AllDigits(t[1..]) then
      var v: int := DigitsValue(t[1..]);
      Some(if t[0] == '-' then -v else v)
    else if t != [] && AllDigits(t) then Some(DigitsValue(t))
    else None
  }

  function DigitChar(d: nat): (c: char)
    requires d < 10
    ensures IsDigit(c) && c as int - '0' as int == d
  {
    ('0' as int + d) as char
  }

  /** `str(n)` for a natural number. */
  function NatText(n: nat): (s: string)
    ensures s != [] && AllDigits(s)
  {
    if n < 10 then [DigitChar(n)] else NatText(n / 10) + [DigitChar(n % 10)]
  }

  /** `str(n)`. */
  function IntText(n: int): string
  {
    if n < 0 then "-" + NatText(-n) else NatText(n)
  }

  lemma {:induction false} NatTextValue(n: nat)
    ensures DigitsValue(NatText(n)) == n
  {
    if n >= 10 {
      NatTextValue(n / 10);
      var s := NatText(n);
      assert s[..|s| - 1] == NatText(n / 10);
    }
  }

  /** `10` to the power `n`. */
  function Pow10(n: nat): (p: nat)
    ensures p >= 1
  {
    if n == 0 then 1 else 10 * Pow10(n - 1)
  }

  /** `n` written with exactly `w` digits, zero-padded (the low `w` digits when `n` is wider). */
  function Pad(n: nat, w: nat): (s: string)
    ensures |s| == w && AllDigits(s)
    decreases w
  {
    if w == 0 then [] else Pad(n / 10, w - 1) + [DigitChar(n % 10)]
  }

  /** Reading back a padded number gives the number. */
  lemma {:induction false} PadValue(n: nat, w: nat)
    requires n < Pow10(w)
    ensures DigitsValue(Pad(n, w)) == n
    decreases w
  {
    if w > 0 {
      assert n / 10 < Pow10(w - 1);
      PadValue(n / 10, w - 1);
      var s := Pad(n, w);
      assert s[..|s| - 1] == Pad(n / 10, w - 1);
    }
  }

  /** A run of digits is the padded form of its value. */
  lemma {:induction false} PadOfValue(s: string)
    requires AllDigits(s)
    ensures Pad(DigitsValue(s), |s|) == s
    decreases |s|
  {
    if s != [] {
      var init := s[..|s| - 1];
      var v := DigitsValue(s);
      PadOfValue(init);
      DivMod10(DigitsValue(init), s[|s| - 1] as int - '0' as int);
      assert s == init + [s[|s| - 1]];
    }
  }

  lemma DivMod10(q: nat, d: nat)
    requires d < 10
    ensures (q * 10 + d) / 10 == q && (q * 10 + d) % 10 == d
  {
  }

  /** Text whose ends are not white space is its own strip. */
  lemma StripUnspaced(t: string)
    requires t != [] && !IsSpace(t[0]) && !IsSpace(t[|t| - 1])
    ensures Strip(t) == t
  {
  }

  /** `int(str(n)) == n`. */
  lemma IntTextRoundTrip(n: int)
    ensures ParseInt(IntText(n)) == Some(n)
  {
    var m := if n < 0 then -n else n;
    NatTextValue(m);
    var d := NatText(m);
    if n < 0 {
      var t := "-" + d;
      assert t[1..] == d;
      StripUnspaced(t);
    } else {
      StripUnspaced(d);
    }
  }

  /** Python's comparison of two strings: code point by code point. */
  predicate LexLe(a: string, b: string)
  {
    a == [] || (b != [] && (a[0] < b[0] || (a[0] == b[0] && LexLe(a[1..], b[1..]))))
  }

  lemma {:induction false} LexLeTotal(a: string, b: string)
    ensures LexLe(a, b) || LexLe(b, a)
  {
    if a != [] && b != [] && a[0] == b[0] { LexLeTotal(a[1..], b[1..]); }
  }

  lemma {:induction false} LexLeTransitive(a: string, b: string, c: string)
    requires LexLe(a, b) && LexLe(b, c)
    ensures LexLe(a, c)
  {
    if a != [] && b != [] && c != [] && a[0] == b[0] == c[0] {
      LexLeTransitive(a[1..], b[1..], c[1..]);
    }
  }

  lemma {:induction false} LexLeAntisymmetric(a: string, b: string)
    requires LexLe(a, b) && LexLe(b, a)
    ensures a == b
  {
    if a != [] && b != [] {
      LexLeAntisymmetric(a[1..], b[1..]);
      assert a == [a[0]] + a[1..] && b == [b[0]] + b[1..];
    }
  }

  // ---------------------------------------------------------------------
  // JSON values as `json.load` returns them (numbers are integers here)
  // ---------------------------------------------------------------------

  datatype Json =
    | JNull
    | JBool(b: bool)
    | JInt(i: int)
    | JStr(s: string)
    | JArray(items: seq<Json>)
    | JObject(fields: map<string, Json>)

  /** A value `sqlite3` can bind as a parameter: a JSON array or object cannot be, and an int
      outside SQLite's signed 64-bit INTEGER range raises OverflowError. */
  predicate Bindable(j: Json)
  {
    match j
    case JArray(_) => false
    case JObject(_) => false
    case JInt(i) => -0x8000_0000_0000_0000 <= i < 0x8000_0000_0000_0000
    case _ => true
  }

  /** Python truthiness of a decoded JSON value. */
  predicate Truthy(j: Json)
  {
    match j
    case JNull => false
    case JBool(b) => b
    case JInt(i) => i != 0
    case JStr(s) => s != []
    case JArray(items) => items != []
    case JObject(fields) => fields != map[]
  }

  /** Python's `str()` of a decoded JSON value, as f-strings use it; `repr` gives the text of
      a list or a dict, which the model does not spell out. */
  function Str(j: Json, repr: Json -> string): string
  {
    match j
    case JNull => "None"
    case JBool(b) => if b then "True" else "False"
    case JInt(i) => IntText(i)
    case JStr(s) => s
    case _ => repr(j)
  }

  /** `d.get(key)` on a dict: a missing key reads as `None`. */
  function Get(fields: map<string, Json>, key: string): (r: Json)
    ensures key !in fields ==> r == JNull
    ensures key in fields ==> r == fields[key]
  {
    if key in fields then fields[key] else JNull
  }

  /** `d.get(key, default)` on a dict. */
  function GetOr(fields: map<string, Json>, key: string, default: Json): (r: Json)
    ensures key !in fields ==> r == default
    ensures key in fields ==> r == fields[key]
  {
    if key in fields then fields[key] else default
  }

  /** Python's `a or b`: the first operand when it is truthy, else the second. */
  function Or(a: Json, b: Json): (r: Json)
    ensures Truthy(r) <==> Truthy(a) || Truthy(b)
    ensures Truthy(a) ==> r == a
  {
    if Truthy(a) then a else b
  }

  // ---------------------------------------------------------------------
  // Batching: [xs[i:i + n] for i in range(0, len(xs), n)]
  // ---------------------------------------------------------------------

  function Chunks<T>(xs: seq<T>, n: nat): (cs: seq<seq<T>>)
    requires n > 0
    decreases |xs|
  {
    if |xs| == 0 then []
    else if |xs| <= n then [xs]
    else [xs[..n]] + Chunks(xs[n..], n)
  }

  function Flatten<T>(ss: seq<seq<T>>): seq<T>
  {
    if ss == [] then [] else ss[0] + Flatten(ss[1..])
  }

  lemma {:induction false} FlattenAppend<T>(a: seq<seq<T>>, b: seq<seq<T>>)
    ensures Flatten(a + b) == Flatten(a) + Flatten(b)
  {
    if a == [] {
      assert a + b == b;
    } else {
      assert (a + b)[0] == a[0];
      assert (a + b)[1..] == a[1..] + b;
      FlattenAppend(a[1..], b);
      calc {
        Flatten(a + b);
        a[0] + Flatten(a[1..] + b);
        a[0] + (Flatten(a[1..]) + Flatten(b));
        (a[0] + Flatten(a[1..])) + Flatten(b);
      }
    }
  }

  /** Joining batches from `b` on: batch `b`, then the rest. */
  lemma FlattenCons<T>(bs: seq<seq<T>>, b: nat)
    requires b < |bs|
    ensures Flatten(bs[b..]) == bs[b] + Flatten(bs[b + 1..])
  {
    assert bs[b..][0] == bs[b] && bs[b..][1..] == bs[b + 1..];
  }

  /** A non-empty sequence that starts the suffix of `xs` at `k` starts with `xs[k]`. */
  lemma SuffixStep<T>(x: seq<T>, rest: seq<T>, xs: seq<T>, k: nat)
    requires x != [] && k <= |xs| && x + rest == xs[k..]
    ensures k < |xs| && xs[k] == x[0] && x[1..] + rest == xs[k + 1..]
  {
    assert (x + rest)[0] == x[0];
    assert (x + rest)[1..] == x[1..] + rest;
    assert xs[k..][1..] == xs[k + 1..];
  }

  /** The batches, joined back together, give the input in order. */
  lemma {:induction false} ChunksFlatten<T>(xs: seq<T>, n: nat)
    requires n > 0
    ensures Flatten(Chunks(xs, n)) == xs
    decreases |xs|
  {
    if |xs| == 0 {
    } else if |xs| <= n {
      assert Flatten([xs]) == xs + Flatten<T>([]);
    } else {
      var rest := Chunks(xs[n..], n);
      ChunksFlatten(xs[n..], n);
      assert Chunks(xs, n) == [xs[..n]] + rest;
      assert ([xs[..n]] + rest)[1..] == rest;
      assert xs[..n] + xs[n..] == xs;
    }
  }

  /** The batch that starts at `i` ends at `end`; the rest are the batches of what follows. */
  lemma ChunksStep<T>(xs: seq<T>, i: nat, end: nat, n: nat)
    requires n > 0 && i < |xs| && end == (if i + n < |xs| then i + n else |xs|)
    ensures Chunks(xs[i..], n) == [xs[i..end]] + Chunks(xs[end..], n)
  {
    var t := xs[i..];
    if |t| <= n {
      assert xs[end..] == [];
      assert t == xs[i..end];
    } else {
      assert t[..n] == xs[i..end];
      assert t[n..] == xs[end..];
    }
  }

  /** There are ceil(len / n) batches. */
  lemma {:induction false} ChunksCount<T>(xs: seq<T>, n: nat)
    requires n > 0
    ensures |Chunks(xs, n)| == (|xs| + n - 1) / n
    decreases |xs|
  {
    if |xs| == 0 {
    } else if |xs| <= n {
      assert (|xs| + n - 1) / n == 1;
    } else {
      ChunksCount(xs[n..], n);
      DivStep(|xs[n..]| + n - 1, n);
      assert |xs| + n - 1 == (|xs[n..]| + n - 1) + n;
    }
  }

  lemma DivStep(x: int, n: int)
    requires n > 0
    ensures (x + n) / n == x / n + 1
  {
    var q, r := x / n, x % n;
    var q', r' := (x + n) / n, (x + n) % n;
    assert n * q' + r' == n * (q + 1) + r;
    var d := q' - q - 1;
    assert n * d == r - r' by {
      assert n * q' == n * (q + 1) + n * d;
    }
    if d < 0 {
      MulMono(n, -d);
    }
  }

  lemma MulMono(n: int, d: int)
    requires n > 0 && d > 0
    ensures n * d >= n
  {
    assert n * d == n * (d - 1) + n;
    assert n * (d - 1) >= 0;
  }

  /** Each batch holds 1..n items, and all but the last exactly n. */
  lemma {:induction false} ChunksSizes<T>(xs: seq<T>, n: nat)
    requires n > 0
    ensures forall c :: c in Chunks(xs, n) ==> 0 < |c| <= n
    ensures forall k :: 0 <= k < |Chunks(xs, n)| - 1 ==> |Chunks(xs, n)[k]| == n
    decreases |xs|
  {
    if |xs| > n {
      var rest := Chunks(xs[n..], n);
      ChunksSizes(xs[n..], n);
      var cs := [xs[..n]] + rest;
      assert Chunks(xs, n) == cs;
      forall k | 1 <= k < |cs| ensures cs[k] == rest[k - 1] { }
    }
  }

  // ---------------------------------------------------------------------
  // Sorting
  // ---------------------------------------------------------------------

  ghost predicate TotalPreorder<T(!new)>(le: (T, T) -> bool)
  {
    && (forall x, y :: le(x, y) || le(y, x))
    && (forall x, y, z :: le(x, y) && le(y, z) ==> le(x, z))
  }

  ghost predicate SortedBy<T>(s: seq<T>, le: (T, T) -> bool)
  {
    forall i, j :: 0 <= i < j < |s| ==> le(s[i], s[j])
  }

  /** Inserts `x` in front of the first element it may precede; equal elements keep `x` first. */
  function InsertBy<T>(x: T, s: seq<T>, le: (T, T) -> bool): seq<T>
  {
    if s == [] || le(x, s[0]) then [x] + s else [s[0]] + InsertBy(x, s[1..], le)
  }

  /** A stable insertion sort (Python's `list.sort` keeps equal elements in input order). */
  function SortBy<T>(s: seq<T>, le: (T, T) -> bool): seq<T>
  {
    if s == [] then [] else InsertBy(s[0], SortBy(s[1..], le), le)
  }

  lemma {:induction false} InsertByFacts<T(!new)>(x: T, s: seq<T>, le: (T, T) -> bool)
    requires TotalPreorder(le) && SortedBy(s, le)
    ensures multiset(InsertBy(x, s, le)) == multiset(s) + multiset{x}
    ensures SortedBy(InsertBy(x, s, le), le)
  {
    if s == [] || le(x, s[0]) {
    } else {
      InsertByFacts(x, s[1..], le);
      assert s == [s[0]] + s[1..];
      var r := InsertBy(x, s[1..], le);
      assert forall k :: 0 <= k < |r| ==> le(s[0], r[k]) by {
        forall k | 0 <= k < |r| ensures le(s[0], r[k]) {
          assert r[k] in multiset(r);
          assert r[k] in multiset(s[1..]) + multiset{x};
          if r[k] == x {
            assert le(s[0], x);
          } else {
            assert r[k] in s[1..];
            var m :| 0 <= m < |s[1..]| && s[1..][m] == r[k];
            assert le(s[0], s[m + 1]);
          }
        }
      }
    }
  }

  /** The sorted list is a permutation of the input, ordered by `le`. */
  lemma {:induction false} SortByFacts<T(!new)>(s: seq<T>, le: (T, T) -> bool)
    requires TotalPreorder(le)
    ensures multiset(SortBy(s, le)) == multiset(s)
    ensures SortedBy(SortBy(s, le), le)
  {
    if s != [] {
      SortByFacts(s[1..], le);
      InsertByFacts(s[0], SortBy(s[1..], le), le);
      assert s == [s[0]] + s[1..];
    }
  }

  lemma SortByLength<T(!new)>(s: seq<T>, le: (T, T) -> bool)
    requires TotalPreorder(le)
    ensures |SortBy(s, le)| == |s|
  {
    SortByFacts(s, le);
    assert |multiset(SortBy(s, le))| == |multiset(s)|;
  }

  ghost predicate IsMin<T>(m: T, s: set<T>, le: (T, T) -> bool)
  {
    m in s && forall y :: y in s ==> le(m, y)
  }

  lemma {:induction false} MinExists<T(!new)>(s: set<T>, le: (T, T) -> bool)
    requires s != {} && TotalPreorder(le)
    ensures exists m :: IsMin(m, s, le)
    decreases |s|
  {
    var x :| x in s;
    if s == {x} {
      assert le(x, x);
      assert IsMin(x, s, le);
    } else {
      MinExists(s - {x}, le);
      var m :| IsMin(m, s - {x}, le);
      if le(x, m) {
        forall y | y in s ensures le(x, y) {
          if y != x { assert le(m, y); }
          else { assert le(x, x); }
        }
        assert IsMin(x, s, le);
      } else {
        assert le(m, x);
        assert IsMin(m, s, le);
      }
    }
  }

  lemma IntLeTotal()
    ensures TotalPreorder((a: int, b: int) => a <= b)
  {
  }

  lemma CharLeTotal()
    ensures TotalPreorder((a: char, b: char) => a <= b)
  {
  }

  /** `sorted(s)` of a set of integers. */
  function SortedInts(s: set<int>): (r: seq<int>)
    decreases |s|
  {
    if s == {} then []
    else
      IntLeTotal();
      MinExists(s, (a: int, b: int) => a <= b);
      var m :| m in s && forall y :: y in s ==> m <= y;
      [m] + SortedInts(s - {m})
  }

  /** The list holds exactly the members of the set, strictly ascending. */
  lemma {:induction false} SortedIntsFacts(s: set<int>)
    ensures forall i, j :: 0 <= i < j < |SortedInts(s)| ==> SortedInts(s)[i] < SortedInts(s)[j]
    ensures forall x :: x in SortedInts(s) <==> x in s
    ensures |SortedInts(s)| == |s|
    decreases |s|
  {
    if s != {} {
      var r := SortedInts(s);
      var m := r[0];
      assert m in s && forall y :: y in s ==> m <= y;
      SortedIntsFacts(s - {m});
      var rest := SortedInts(s - {m});
      assert r == [m] + rest;
      forall j | 0 < j < |r| ensures m < r[j] {
        assert r[j] == rest[j - 1];
        assert rest[j - 1] in s - {m};
      }
    }
  }

  /** `''.join(sorted(s))` of a set of one-character strings. */
  function SortedChars(s: set<char>): (r: string)
    decreases |s|
  {
    if s == {} then []
    else
      CharLeTotal();
      MinExists(s, (a: char, b: char) => a <= b);
      var m :| m in s && forall y :: y in s ==> m <= y;
      [m] + SortedChars(s - {m})
  }

  /** The string holds exactly the members of the set, strictly ascending. */
  lemma {:induction false} SortedCharsFacts(s: set<char>)
    ensures forall i, j :: 0 <= i < j < |SortedChars(s)| ==> SortedChars(s)[i] < SortedChars(s)[j]
    ensures forall x :: x in SortedChars(s) <==> x in s
    ensures |SortedChars(s)| == |s|
    decreases |s|
  {
    if s != {} {
      var r := SortedChars(s);
      var m := r[0];
      assert m in s && forall y :: y in s ==> m <= y;
      SortedCharsFacts(s - {m});
      var rest := SortedChars(s - {m});
      assert r == [m] + rest;
      forall j | 0 < j < |r| ensures m < r[j] {
        assert r[j] == rest[j - 1];
        assert rest[j - 1] in s - {m};
      }
    }
  }
}
