/** Small value types and sequence/string helpers shared by every module. */
module Util {

  datatype Option<T> = None | Some(value: T)

  /** An operation that either succeeds with a value or fails with the message the source raises. */
  datatype Result<T> = Ok(value: T) | Err(message: string)

  predicate StartsWith<T(==)>(s: seq<T>, prefix: seq<T>) {
    |prefix| <= |s| && s[..|prefix|] == prefix
  }

  predicate EndsWith<T(==)>(s: seq<T>, suffix: seq<T>) {
    |suffix| <= |s| && s[|s| - |suffix|..] == suffix
  }

  /** `sub` occurs in `s` at some offset (JavaScript `includes`, Python `in`). */
  predicate Contains<T(==)>(s: seq<T>, sub: seq<T>)
    decreases |s|
  {
    StartsWith(s, sub) || (|s| > 0 && Contains(s[1..], sub))
  }

  /** Concatenation regroups; stated once so that loops appending in steps need not rediscover it. */
  lemma AppendAssoc<T>(a: seq<T>, b: seq<T>, c: seq<T>)
    ensures a + (b + c) == a + b + c
  {
  }

  lemma {:induction false} ContainsEmpty<T>(s: seq<T>)
    ensures Contains(s, [])
  {
  }

  /** ASCII lower-casing of one character. */
  function LowerChar(c: char): char {
    if 'A' <= c <= 'Z' then (c as int + 32) as char else c
  }

  function Lower(s: string): (r: string)
    ensures |r| == |s|
  {
    seq(|s|, i requires 0 <= i < |s| => LowerChar(s[i]))
  }

  /** Case-insensitive containment as `x.lower().includes(q.lower())`. */
  predicate ContainsIgnoreCase(s: string, query: string) {
    Contains(Lower(s), Lower(query))
  }

  /**
   * SQLite's `text LIKE pattern` with no ESCAPE clause: '%' matches any run
   * of characters, the empty one included, '_' exactly one character, and
   * any other character itself, ASCII letters without regard to case.
   */
  predicate Like(text: string, pattern: string)
    decreases |text| + |pattern|
  {
    if |pattern| == 0 then |text| == 0
    else if pattern[0] == '%' then Like(text, pattern[1..]) || (|text| > 0 && Like(text[1..], pattern))
    else |text| > 0 && (pattern[0] == '_' || LowerChar(text[0]) == LowerChar(pattern[0]))
         && Like(text[1..], pattern[1..])
  }

  /** `text LIKE ?` bound to `f"%{query}%"`: the search condition the SQL queries build. */
  predicate LikeContains(text: string, query: string) {
    Like(text, "%" + query + "%")
  }

  /** A query holding neither of LIKE's wildcard characters. */
  predicate NoWildcards(query: string) {
    forall i :: 0 <= i < |query| ==> query[i] != '%' && query[i] != '_'
  }

  /** A trailing '%' matches whatever is left. */
  lemma {:induction false} LikeAnyRest(text: string)
    ensures Like(text, "%")
    decreases |text|
  {
    if |text| > 0 {
      LikeAnyRest(text[1..]);
    }
  }

  lemma LowerTail(s: string)
    requires |s| > 0
    ensures Lower(s)[1..] == Lower(s[1..]) && Lower(s)[0] == LowerChar(s[0])
  {
  }

  /** A wildcard-free query followed by '%' matches exactly the texts starting with it, case aside. */
  lemma {:induction false} LikeLiteralPrefix(text: string, query: string)
    requires NoWildcards(query)
    ensures Like(text, query + "%") <==> StartsWith(Lower(text), Lower(query))
    decreases |query|
  {
    var p := query + "%";
    if |query| == 0 {
      assert p == "%";
      LikeAnyRest(text);
    } else {
      assert p[0] == query[0] && p[1..] == query[1..] + "%";
      assert NoWildcards(query[1..]) by {
        forall i | 0 <= i < |query[1..]| ensures query[1..][i] == query[i + 1] { }
      }
      LowerTail(query);
      if |text| > 0 {
        LikeLiteralPrefix(text[1..], query[1..]);
        LowerTail(text);
        if StartsWith(Lower(text), Lower(query)) {
          assert Lower(text)[1..][..|query| - 1] == Lower(text)[..|query|][1..];
        }
        if Like(text, p) {
          assert Lower(text)[..|query|] == [Lower(text)[0]] + Lower(text)[1..][..|query| - 1];
          assert Lower(query) == [Lower(query)[0]] + Lower(query)[1..];
        }
      }
    }
  }

  /**
   * Without wildcard characters in the query, the SQL search is the
   * case-insensitive substring test.
   */
  lemma {:induction false} LikeContainsLiteral(text: string, query: string)
    requires NoWildcards(query)
    ensures LikeContains(text, query) <==> ContainsIgnoreCase(text, query)
    decreases |text|
  {
    var p := "%" + query + "%";
    assert p[0] == '%' && p[1..] == query + "%";
    LikeLiteralPrefix(text, query);
    if |text| > 0 {
      LikeContainsLiteral(text[1..], query);
      LowerTail(text);
    }
  }

  /** A '_' in the query matches any one character: "a_c" finds "abc", which holds no "a_c". */
  lemma UnderscoreIsWildcard()
    ensures LikeContains("abc", "a_c") && !ContainsIgnoreCase("abc", "a_c")
  {
    var t, q := "abc", "a_c";
    assert ("%" + q + "%")[1..] == q + "%";
    assert (q + "%")[1..] == "_c%" && "_c%"[1..] == "c%" && "c%"[1..] == "%" && "%"[1..] == "";
    assert t[1..] == "bc" && "bc"[1..] == "c" && "c"[1..] == "";
    assert Like("", "%");
    assert Like("c", "c%");
    assert Like("bc", "_c%");
    assert Like(t, q + "%");
    assert Lower(t) == t && Lower(q) == q;
    assert !StartsWith(t, q) by { assert t[1] != q[1]; }
    assert !Contains(t[1..], q) by {
      assert !Contains("", q);
      assert !Contains("c", q);
      assert !StartsWith("bc", q);
    }
  }

  /** The value of the first entry of `table` keyed `name`: a lookup in a constant object or dictionary. */
  function Lookup(table: seq<(string, string)>, name: string): (r: Option<string>)
    ensures r.None? <==> forall i :: 0 <= i < |table| ==> table[i].0 != name
    ensures r.Some? <==> exists i :: 0 <= i < |table| && table[i].0 == name
    ensures r.Some? ==> exists i :: 0 <= i < |table| && table[i] == (name, r.value)
  {
    if |table| == 0 then None
    else if table[0].0 == name then Some(table[0].1)
    else
      var r := Lookup(table[1..], name);
      assert forall i :: 0 < i < |table| ==> table[i] == table[1..][i - 1];
      r
  }

  /** `parts.join(sep)`. */
  function Join(parts: seq<string>, sep: string): string {
    if |parts| == 0 then ""
    else if |parts| == 1 then parts[0]
    else parts[0] + sep + Join(parts[1..], sep)
  }

  /** Text found in `s` is still found after something is put in front of it. */
  lemma {:induction false} ContainsAfter<T>(a: seq<T>, s: seq<T>, sub: seq<T>)
    requires Contains(s, sub)
    ensures Contains(a + s, sub)
    decreases |a|
  {
    if |a| > 0 {
      ContainsAfter(a[1..], s, sub);
      assert (a + s)[1..] == a[1..] + s;
    } else {
      assert a + s == s;
    }
  }

  lemma ContainsHead<T>(s: seq<T>, rest: seq<T>)
    ensures Contains(s + rest, s)
  {
    assert (s + rest)[..|s|] == s;
  }

  /** Every part of a join occurs in the joined text. */
  lemma {:induction false} JoinContains(parts: seq<string>, sep: string, k: nat)
    requires k < |parts|
    ensures Contains(Join(parts, sep), parts[k])
  {
    if |parts| == 1 {
      ContainsHead(parts[0], "");
      assert parts[0] + "" == parts[0];
    } else if k == 0 {
      ContainsHead(parts[0], sep + Join(parts[1..], sep));
      assert parts[0] + sep + Join(parts[1..], sep) == parts[0] + (sep + Join(parts[1..], sep));
    } else {
      JoinContains(parts[1..], sep, k - 1);
      ContainsAfter(parts[0] + sep, Join(parts[1..], sep), parts[k]);
    }
  }

  lemma JoinContainsAll(parts: seq<string>, sep: string)
    ensures forall t :: t in parts ==> Contains(Join(parts, sep), t)
  {
    forall t | t in parts
      ensures Contains(Join(parts, sep), t)
    {
      var k :| 0 <= k < |parts| && parts[k] == t;
      JoinContains(parts, sep, k);
    }
  }

  /** The joined text starts with the first part. */
  lemma JoinStartsWith(parts: seq<string>, sep: string)
    requires |parts| > 0
    ensures StartsWith(Join(parts, sep), parts[0])
  {
    if |parts| > 1 {
      assert Join(parts, sep) == parts[0] + (sep + Join(parts[1..], sep));
    }
  }

  function DigitChar(d: nat): char
    requires d < 10
  {
    ('0' as int + d) as char
  }

  /** Decimal rendering of a natural number, as `${n}` / `str(n)`. */
  function Decimal(n: nat): (r: string)
    ensures |r| >= 1
  {
    if n < 10 then [DigitChar(n)] else Decimal(n / 10) + [DigitChar(n % 10)]
  }

  predicate AllDigits(s: string) {
    forall i :: 0 <= i < |s| ==> '0' <= s[i] <= '9'
  }

  /** The rendering is made of decimal digits only. */
  lemma {:induction false} DecimalDigits(n: nat)
    ensures AllDigits(Decimal(n))
  {
    if n >= 10 {
      DecimalDigits(n / 10);
    }
  }

  function DecimalValue(s: string): nat
    requires AllDigits(s)
  {
    if |s| == 0 then 0 else DecimalValue(s[..|s| - 1]) * 10 + (s[|s| - 1] as int - '0' as int)
  }

  /** Reading the decimal text back gives the number, so distinct numbers render differently. */
  lemma {:induction false} DecimalRoundTrip(n: nat)
    ensures AllDigits(Decimal(n)) && DecimalValue(Decimal(n)) == n
  {
    DecimalDigits(n);
    if n >= 10 {
      DecimalRoundTrip(n / 10);
      var s := Decimal(n);
      assert s[..|s| - 1] == Decimal(n / 10);
    }
  }

  /** Decimal rendering of an integer, with a leading '-' for negatives. */
  function IntDecimal(n: int): string {
    if n < 0 then "-" + Decimal(-n) else Decimal(n)
  }

  predicate IsDigit(c: char) {
    '0' <= c <= '9'
  }

  /** The longest prefix of decimal digits. */
  function LeadingDigits(s: string): (r: string)
    ensures StartsWith(s, r) && AllDigits(r)
    ensures |r| < |s| ==> !IsDigit(s[|r|])
  {
    if |s| == 0 || !IsDigit(s[0]) then []
    else [s[0]] + LeadingDigits(s[1..])
  }

  /** A digit string is all leading digits. */
  lemma {:induction false} LeadingAllDigits(s: string)
    requires AllDigits(s)
    ensures LeadingDigits(s) == s
  {
    if |s| > 0 {
      LeadingAllDigits(s[1..]);
      assert [s[0]] + s[1..] == s;
    }
  }

  /** The white space and line terminators JavaScript skips before a number. */
  predicate JsSpace(c: char) {
    (9 <= c as int <= 13) || c == ' ' || c as int == 0xA0 || c as int == 0x1680
    || (0x2000 <= c as int <= 0x200A) || c as int == 0x2028 || c as int == 0x2029
    || c as int == 0x202F || c as int == 0x205F || c as int == 0x3000 || c as int == 0xFEFF
  }

  /** The text after the leading JavaScript white space. */
  function TrimJsStart(s: string): (r: string)
    ensures |r| <= |s| && r == s[|s| - |r|..]
    ensures |r| > 0 ==> !JsSpace(r[0])
  {
    if |s| == 0 || !JsSpace(s[0]) then s else TrimJsStart(s[1..])
  }

  /** The text before the trailing JavaScript white space. */
  function TrimJsEnd(s: string): (r: string)
    ensures |r| <= |s| && r == s[..|r|]
    ensures |r| > 0 ==> !JsSpace(r[|r| - 1])
  {
    if |s| == 0 || !JsSpace(s[|s| - 1]) then s else TrimJsEnd(s[..|s| - 1])
  }

  /** JavaScript's `trim()`: no white space at either end. */
  function TrimJs(s: string): (r: string)
    ensures |r| <= |s|
    ensures |r| > 0 ==> !JsSpace(r[0]) && !JsSpace(r[|r| - 1])
  {
    TrimJsEnd(TrimJsStart(s))
  }

  /** The trimmed text is a slice of the text, starting after the leading white space. */
  lemma {:induction false} TrimJsSlice(s: string)
    ensures var lo := |s| - |TrimJsStart(s)|;
            lo + |TrimJs(s)| <= |s| && TrimJs(s) == s[lo..lo + |TrimJs(s)|]
  {
  }

  /** The text after one leading '+' or '-', if there is one. */
  function Unsigned(t: string): (r: string)
    ensures r == t || (|t| > 0 && (t[0] == '-' || t[0] == '+') && r == t[1..])
  {
    if |t| > 0 && (t[0] == '-' || t[0] == '+') then t[1..] else t
  }

  /**
   * `parseInt(s, 10)`: leading white space is skipped, an optional sign is
   * read, then as many decimal digits as follow; with no digit the result
   * is NaN, here `None`.
   */
  function ParseIntJs(s: string): (r: Option<int>)
    ensures var body := Unsigned(TrimJsStart(s));
            r.None? <==> |body| == 0 || !IsDigit(body[0])
  {
    var t := TrimJsStart(s);
    var d := LeadingDigits(Unsigned(t));
    if |d| == 0 then None
    else if t[0] == '-' then Some(0 - DecimalValue(d))
    else Some(DecimalValue(d))
  }

  /** A digit string followed by anything but a digit parses to its value. */
  lemma {:induction false} ParseIntDigits(d: string, rest: string)
    requires |d| > 0 && AllDigits(d) && (|rest| == 0 || !IsDigit(rest[0]))
    ensures ParseIntJs(d + rest) == Some(DecimalValue(d))
  {
    assert (d + rest)[0] == d[0];
    ParseIntDigitStart(d + rest);
    LeadingDigitsOf(d, rest);
  }

  /** Text that starts with a digit parses to the value of its leading digits. */
  lemma ParseIntDigitStart(s: string)
    requires |s| > 0 && IsDigit(s[0])
    ensures ParseIntJs(s) == Some(DecimalValue(LeadingDigits(s)))
  {
    assert !JsSpace(s[0]);
    assert TrimJsStart(s) == s;
    assert Unsigned(s) == s;
  }

  lemma {:induction false} LeadingDigitsOf(d: string, rest: string)
    requires AllDigits(d) && (|rest| == 0 || !IsDigit(rest[0]))
    ensures LeadingDigits(d + rest) == d
  {
    if |d| > 0 {
      assert (d + rest)[1..] == d[1..] + rest;
      LeadingDigitsOf(d[1..], rest);
      assert [d[0]] + d[1..] == d;
    } else {
      assert d + rest == rest;
    }
  }

  /** `s.split(sep)` for a one-character separator: the pieces between separators, at least one. */
  function Split(s: string, sep: char): (r: seq<string>)
    ensures |r| >= 1
  {
    if |s| == 0 then [""]
    else
      var rest := Split(s[1..], sep);
      if s[0] == sep then [""] + rest else [[s[0]] + rest[0]] + rest[1..]
  }

  lemma {:induction false} SplitNoSeparator(a: string, sep: char)
    requires sep !in a
    ensures Split(a, sep) == [a]
  {
    if |a| > 0 {
      SplitNoSeparator(a[1..], sep);
      assert [a[0]] + a[1..] == a;
    }
  }

  /** Splitting a separator-free head off: `(a + sep + b).split(sep) == [a] + b.split(sep)`. */
  lemma {:induction false} SplitCons(a: string, sep: char, b: string)
    requires sep !in a
    ensures Split(a + [sep] + b, sep) == [a] + Split(b, sep)
  {
    if |a| == 0 {
      assert a + [sep] + b == [sep] + b;
      assert ([sep] + b)[1..] == b;
    } else {
      SplitCons(a[1..], sep, b);
      assert (a + [sep] + b)[1..] == a[1..] + [sep] + b;
      assert [a[0]] + a[1..] == a;
    }
  }

  /** Python's `str.isspace()` over the ASCII range, which is what `split()` and `strip()` use. */
  predicate IsSpace(c: char) {
    c == ' ' || (9 <= c as int <= 13) || (28 <= c as int <= 31)
  }

  /** `s.lstrip()`: the suffix left after the leading whitespace. */
  function TrimStart(s: string): (r: string)
    ensures |r| <= |s| && r == s[|s| - |r|..]
    ensures |r| > 0 ==> !IsSpace(r[0])
  {
    if |s| == 0 || !IsSpace(s[0]) then s else TrimStart(s[1..])
  }

  /** `s.rstrip()`: the prefix left before the trailing whitespace. */
  function TrimEnd(s: string): (r: string)
    ensures |r| <= |s| && r == s[..|r|]
    ensures |r| > 0 ==> !IsSpace(r[|r| - 1])
  {
    if |s| == 0 || !IsSpace(s[|s| - 1]) then s else TrimEnd(s[..|s| - 1])
  }

  /** `s.strip()`: drop leading and trailing whitespace. */
  function Strip(s: string): (r: string)
    ensures |r| <= |s|
    ensures |r| > 0 ==> !IsSpace(r[0]) && !IsSpace(r[|r| - 1])
  {
    TrimEnd(TrimStart(s))
  }

  /** Sorted so that `key` never increases. */
  predicate SortedDesc<T>(s: seq<T>, key: T -> int) {
    forall i, j :: 0 <= i < j < |s| ==> key(s[i]) >= key(s[j])
  }

  function InsertDesc<T(==)>(x: T, s: seq<T>, key: T -> int): (r: seq<T>)
    requires SortedDesc(s, key)
    ensures SortedDesc(r, key)
    ensures multiset(r) == multiset(s) + multiset{x}
    ensures |r| == |s| + 1 && (r[0] == x || (|s| > 0 && r[0] == s[0]))
  {
    if |s| == 0 then [x]
    else if key(x) >= key(s[0]) then [x] + s
    else
      var rest := InsertDesc(x, s[1..], key);
      assert s == [s[0]] + s[1..];
      [s[0]] + rest
  }

  /** SQL's `ORDER BY key DESC`, as a stable insertion sort. */
  function SortDesc<T(==)>(s: seq<T>, key: T -> int): (r: seq<T>)
    ensures SortedDesc(r, key)
    ensures multiset(r) == multiset(s)
    ensures |r| == |s|
  {
    if |s| == 0 then []
    else
      assert s == [s[0]] + s[1..];
      InsertDesc(s[0], SortDesc(s[1..], key), key)
  }

  /** The elements whose key is `k`, in order. */
  function WithKey<T>(s: seq<T>, key: T -> int, k: int): seq<T> {
    if |s| == 0 then []
    else (if key(s[0]) == k then [s[0]] else []) + WithKey(s[1..], key, k)
  }

  lemma {:induction false} WithKeyAppend<T>(a: seq<T>, b: seq<T>, key: T -> int, k: int)
    ensures WithKey(a + b, key, k) == WithKey(a, key, k) + WithKey(b, key, k)
  {
    if |a| > 0 {
      var head := if key(a[0]) == k then [a[0]] else [];
      assert (a + b)[0] == a[0] && (a + b)[1..] == a[1..] + b;
      WithKeyAppend(a[1..], b, key, k);
      assert WithKey(a + b, key, k) == head + (WithKey(a[1..], key, k) + WithKey(b, key, k));
    } else {
      assert a + b == b;
    }
  }

  /** An element with key `k` in a descending sequence means the first key is at least `k`. */
  lemma {:induction false} WithKeyBound<T>(s: seq<T>, key: T -> int, k: int)
    requires SortedDesc(s, key) && WithKey(s, key, k) != []
    ensures |s| > 0 && k <= key(s[0])
  {
    if key(s[0]) != k {
      WithKeyBound(s[1..], key, k);
    }
  }

  lemma WithKeyCons<T>(a: T, s: seq<T>, key: T -> int, k: int)
    ensures WithKey([a] + s, key, k) == (if key(a) == k then [a] else []) + WithKey(s, key, k)
  {
    assert ([a] + s)[0] == a && ([a] + s)[1..] == s;
  }

  /** Inserting puts the new element before every element that has its key. */
  lemma {:induction false} WithKeyInsert<T>(x: T, s: seq<T>, key: T -> int, k: int)
    requires SortedDesc(s, key)
    ensures WithKey(InsertDesc(x, s, key), key, k) == (if key(x) == k then [x] else []) + WithKey(s, key, k)
  {
    if |s| == 0 {
      WithKeyCons(x, s, key, k);
      assert InsertDesc(x, s, key) == [x] + s;
    } else if key(x) >= key(s[0]) {
      WithKeyCons(x, s, key, k);
    } else {
      var rest := InsertDesc(x, s[1..], key);
      assert InsertDesc(x, s, key) == [s[0]] + rest;
      WithKeyCons(s[0], rest, key, k);
      WithKeyInsert(x, s[1..], key, k);
      assert WithKey(s, key, k) == (if key(s[0]) == k then [s[0]] else []) + WithKey(s[1..], key, k);
    }
  }

  /** `SortDesc` is stable: the elements of one key keep their order. */
  lemma {:induction false} SortDescStable<T>(s: seq<T>, key: T -> int, k: int)
    ensures WithKey(SortDesc(s, key), key, k) == WithKey(s, key, k)
  {
    if |s| > 0 {
      SortDescStable(s[1..], key, k);
      WithKeyInsert(s[0], SortDesc(s[1..], key), key, k);
    }
  }

  /** A descending sequence is fixed by the order of the elements of each key. */
  lemma {:induction false} SortedDescUnique<T>(a: seq<T>, b: seq<T>, key: T -> int)
    requires SortedDesc(a, key) && SortedDesc(b, key)
    requires forall k :: WithKey(a, key, k) == WithKey(b, key, k)
    ensures a == b
    decreases |a|
  {
    if |a| == 0 {
      if |b| > 0 {
        assert false;
      }
    } else {
      var m := key(a[0]);
      assert WithKey(a, key, m) != [];
      WithKeyBound(b, key, m);
      var n := key(b[0]);
      assert WithKey(b, key, n) != [];
      WithKeyBound(a, key, n);
      assert m == n;
      assert a[0] == WithKey(a, key, m)[0] == WithKey(b, key, m)[0] == b[0];
      forall k
        ensures WithKey(a[1..], key, k) == WithKey(b[1..], key, k)
      {
        var head := if m == k then [a[0]] else [];
        var x, y := WithKey(a[1..], key, k), WithKey(b[1..], key, k);
        assert WithKey(a, key, k) == head + x;
        assert WithKey(b, key, k) == head + y;
        assert x == (head + x)[|head|..] && y == (head + y)[|head|..];
      }
      SortedDescUnique(a[1..], b[1..], key);
      assert a == [a[0]] + a[1..] && b == [b[0]] + b[1..];
    }
  }

  // ---- ordering by text, standing in for `localeCompare` ----

  /** Code-point order on text: `a` is not after `b`. */
  predicate TextLeq(a: string, b: string) {
    |a| == 0 || (|b| > 0 && (a[0] < b[0] || (a[0] == b[0] && TextLeq(a[1..], b[1..]))))
  }

  lemma {:induction false} TextLeqTotal(a: string, b: string)
    ensures TextLeq(a, b) || TextLeq(b, a)
  {
    if |a| > 0 && |b| > 0 && a[0] == b[0] {
      TextLeqTotal(a[1..], b[1..]);
    }
  }

  /** Each element's key is not after the next one's. */
  predicate SortedBy<T>(s: seq<T>, key: T -> string) {
    forall i :: 0 <= i < |s| - 1 ==> TextLeq(key(s[i]), key(s[i + 1]))
  }

  /** One step of a stable insertion sort: `x` goes after every element whose key is not after its own. */
  function InsertBy<T(==)>(s: seq<T>, x: T, key: T -> string): (r: seq<T>)
    requires SortedBy(s, key)
    ensures SortedBy(r, key) && multiset(r) == multiset(s) + multiset{x}
    ensures |r| > 0 && (r[0] == x || (|s| > 0 && r[0] == s[0]))
  {
    if |s| == 0 then [x]
    else if TextLeq(key(s[0]), key(x)) then
      var rest := InsertBy(s[1..], x, key);
      assert s == [s[0]] + s[1..];
      [s[0]] + rest
    else
      TextLeqTotal(key(s[0]), key(x));
      [x] + s
  }

  /** `s.sort((a, b) => key(a).localeCompare(key(b)))`, as a stable insertion sort. */
  function SortBy<T(==)>(s: seq<T>, key: T -> string): (r: seq<T>)
    ensures SortedBy(r, key) && multiset(r) == multiset(s)
  {
    if |s| == 0 then []
    else
      assert s == s[..|s| - 1] + [s[|s| - 1]];
      InsertBy(SortBy(s[..|s| - 1], key), s[|s| - 1], key)
  }

  // ---- message content blocks ----

  /** A content block of an SDK message, `{type, text}`. */
  datatype Block = Block(kind: string, text: string)

  /** `blocks.filter(b => b.type === 'text').map(b => b.text)` */
  function TextsOf(blocks: seq<Block>): (r: seq<string>)
    ensures |r| <= |blocks|
    ensures forall t :: t in r ==> exists b :: b in blocks && b.kind == "text" && b.text == t
    ensures forall b :: b in blocks && b.kind == "text" ==> b.text in r
  {
    if |blocks| == 0 then []
    else
      var rest := TextsOf(blocks[1..]);
      assert forall b :: b in blocks <==> b == blocks[0] || b in blocks[1..];
      if blocks[0].kind == "text" then [blocks[0].text] + rest else rest
  }

  /**
   * The texts keep the blocks' order: the texts of two runs of blocks are the
   * first run's texts followed by the second's.
   */
  lemma {:induction false} TextsOfAppend(a: seq<Block>, b: seq<Block>)
    ensures TextsOf(a + b) == TextsOf(a) + TextsOf(b)
  {
    if |a| == 0 {
      assert a + b == b;
    } else {
      assert (a + b)[0] == a[0];
      assert (a + b)[1..] == a[1..] + b;
      TextsOfAppend(a[1..], b);
    }
  }

  /** One block gives its text exactly when it is a text block. */
  lemma TextsOfOne(x: Block)
    ensures TextsOf([x]) == if x.kind == "text" then [x.text] else []
  {
    assert [x][1..] == [];
  }

  /** Blocks without a text block have no texts. */
  lemma {:induction false} NoTexts(blocks: seq<Block>)
    requires forall i :: 0 <= i < |blocks| ==> blocks[i].kind != "text"
    ensures TextsOf(blocks) == []
  {
    if |blocks| > 0 {
      NoTexts(blocks[1..]);
    }
  }

  /** SQLite's `LIMIT n`: a negative limit means no limit. */
  function Limit<T>(s: seq<T>, limit: int): (r: seq<T>)
    ensures limit >= 0 ==> |r| == if |s| < limit then |s| else limit
    ensures r <= s
  {
    if limit < 0 || |s| <= limit then s else s[..limit]
  }

  /** Remove every element equal to `x`, keeping the order of the rest. */
  function Without<T(==,!new)>(s: seq<T>, x: T): (r: seq<T>)
    ensures x !in r
    ensures forall y :: y in r <==> y in s && y != x
  {
    if |s| == 0 then []
    else if s[0] == x then Without(s[1..], x)
    else [s[0]] + Without(s[1..], x)
  }

  /** No element twice, as in a JS `Set` kept in insertion order. */
  ghost predicate NoDup<T>(s: seq<T>) {
    forall i, j :: 0 <= i < j < |s| ==> s[i] != s[j]
  }

  /** `set.add(x)`: a new element goes at the end, a present one stays where it is. */
  function SetAdd<T(==,!new)>(s: seq<T>, x: T): (r: seq<T>)
    ensures forall y :: y in r <==> y in s || y == x
    ensures NoDup(s) ==> NoDup(r)
  {
    if x in s then s else s + [x]
  }

  /** `set.delete(x)` keeps the remaining elements distinct. */
  lemma {:induction false} WithoutNoDup<T(!new)>(s: seq<T>, x: T)
    requires NoDup(s)
    ensures NoDup(Without(s, x))
  {
    if |s| > 0 {
      assert NoDup(s[1..]);
      WithoutNoDup(s[1..], x);
      if s[0] != x {
        assert s[0] !in s[1..];
        assert s[0] !in Without(s[1..], x);
      }
    }
  }

  /** Removing from a concatenation removes from each part. */
  lemma {:induction false} WithoutAppend<T(!new)>(a: seq<T>, b: seq<T>, x: T)
    ensures Without(a + b, x) == Without(a, x) + Without(b, x)
  {
    if |a| > 0 {
      assert (a + b)[1..] == a[1..] + b;
      WithoutAppend(a[1..], b, x);
    } else {
      assert a + b == b;
    }
  }

  /** Removing an absent element changes nothing. */
  lemma {:induction false} WithoutAbsent<T(!new)>(s: seq<T>, x: T)
    requires x !in s
    ensures Without(s, x) == s
  {
    if |s| > 0 {
      assert x !in s[1..];
      WithoutAbsent(s[1..], x);
      assert [s[0]] + s[1..] == s;
    }
  }

  /**
   * A newest-first log bounded to `cap` entries: `e` goes in front and the
   * oldest entries beyond the bound are dropped (`unshift` then `slice(0, cap)`).
   */
  function PushNewest<T>(log: seq<T>, e: T, cap: nat): (r: seq<T>)
    requires cap > 0
    ensures |r| == if |log| + 1 < cap then |log| + 1 else cap
    ensures r[0] == e
    ensures r[1..] == log[..|r| - 1]
  {
    var l := [e] + log;
    if |l| > cap then l[..cap] else l
  }

  /** Two pushes leave the newer entry first and the older one second. */
  lemma PushNewestTwice<T>(log: seq<T>, e1: T, e2: T, cap: nat)
    requires cap > 1
    ensures PushNewest(PushNewest(log, e1, cap), e2, cap)[..2] == [e2, e1]
  {
    var r := PushNewest(PushNewest(log, e1, cap), e2, cap);
    assert r[1] == PushNewest(log, e1, cap)[0];
  }

  // ---- lower-case hexadecimal, as `Buffer.toString('hex')` writes it ----

  const HexDigits := "0123456789abcdef"

  predicate IsHex(c: char) {
    ('0' <= c <= '9') || ('a' <= c <= 'f')
  }

  /** The value of a hexadecimal digit. */
  function HexValue(c: char): (r: nat)
    requires IsHex(c)
    ensures r < 16
  {
    if '0' <= c <= '9' then c as int - '0' as int else c as int - 'a' as int + 10
  }

  lemma HexDigitValues()
    ensures forall k :: 0 <= k < 16 ==> IsHex(HexDigits[k]) && HexValue(HexDigits[k]) == k
  {
  }

  /** The two digits of a byte, high nibble first. */
  function ByteHex(b: bv8): (r: string)
    ensures |r| == 2 && IsHex(r[0]) && IsHex(r[1])
    ensures HexValue(r[0]) * 16 + HexValue(r[1]) == b as int
  {
    HexDigitValues();
    [HexDigits[(b / 16) as int], HexDigits[(b % 16) as int]]
  }

  /** The hexadecimal text of a byte string: two digits per byte. */
  function Hex(bytes: seq<bv8>): (r: string)
    ensures |r| == 2 * |bytes|
  {
    if |bytes| == 0 then [] else ByteHex(bytes[0]) + Hex(bytes[1..])
  }

  /** Every character of the text is a lower-case hexadecimal digit. */
  lemma {:induction false} HexIsHex(bytes: seq<bv8>)
    ensures forall i :: 0 <= i < |Hex(bytes)| ==> IsHex(Hex(bytes)[i])
  {
    if |bytes| > 0 {
      HexIsHex(bytes[1..]);
      var h := ByteHex(bytes[0]);
      assert Hex(bytes) == h + Hex(bytes[1..]);
      assert forall i :: 2 <= i < |Hex(bytes)| ==> Hex(bytes)[i] == Hex(bytes[1..])[i - 2];
    }
  }

  /** Reading hexadecimal text back into bytes, two digits at a time. */
  function Unhex(s: string): (r: seq<bv8>)
    requires |s| % 2 == 0 && forall i :: 0 <= i < |s| ==> IsHex(s[i])
    ensures |r| * 2 == |s|
  {
    if |s| == 0 then []
    else [(HexValue(s[0]) * 16 + HexValue(s[1])) as bv8] + Unhex(s[2..])
  }

  /** Hexadecimal text reads back as the bytes it was written from, so distinct bytes give distinct text. */
  lemma {:induction false} UnhexHex(bytes: seq<bv8>)
    ensures (forall i :: 0 <= i < |Hex(bytes)| ==> IsHex(Hex(bytes)[i])) && Unhex(Hex(bytes)) == bytes
  {
    HexIsHex(bytes);
    if |bytes| > 0 {
      var h := ByteHex(bytes[0]);
      assert Hex(bytes)[2..] == Hex(bytes[1..]);
      assert Hex(bytes)[0] == h[0] && Hex(bytes)[1] == h[1];
      UnhexHex(bytes[1..]);
    }
  }

  // ---- searching text ----

  /** The index of the first `c` in `s`, as `indexOf` finds it. */
  function IndexOf(s: string, c: char): (r: Option<nat>)
    ensures r.None? <==> c !in s
    ensures r.Some? ==> r.value < |s| && s[r.value] == c && c !in s[..r.value]
  {
    if |s| == 0 then None
    else if s[0] == c then Some(0)
    else match IndexOf(s[1..], c)
      case None => None
      case Some(k) =>
        assert s[..k + 1] == [s[0]] + s[1..][..k];
        Some(k + 1)
  }

  /** The index of the last `c` in `s`. */
  function LastIndexOf(s: string, c: char): (r: Option<nat>)
    ensures r.None? <==> c !in s
    ensures r.Some? ==> r.value < |s| && s[r.value] == c && c !in s[r.value + 1..]
  {
    if |s| == 0 then None
    else if s[|s| - 1] == c then Some(|s| - 1)
    else
      var r := LastIndexOf(s[..|s| - 1], c);
      if r.Some? then
        assert s[r.value + 1..] == s[..|s| - 1][r.value + 1..] + [s[|s| - 1]];
        r
      else
        assert s == s[..|s| - 1] + [s[|s| - 1]];
        r
  }

  /** The last segment of a path. */
  function Basename(path: string): (r: string)
    ensures '/' !in r && |r| <= |path| && r == path[|path| - |r|..]
  {
    match LastIndexOf(path, '/')
    case None => path
    case Some(k) => path[k + 1..]
  }

  /** The first `c` of `a + [c] + b` is the one after `a` when `a` holds none. */
  lemma {:induction false} IndexOfAfter(a: string, c: char, b: string)
    requires c !in a
    ensures IndexOf(a + [c] + b, c) == Some(|a|)
  {
    if |a| > 0 {
      assert (a + [c] + b)[1..] == a[1..] + [c] + b;
      IndexOfAfter(a[1..], c, b);
    }
  }

  /** The last `c` of `a + [c] + b` is the one after `a` when `b` holds none. */
  lemma {:induction false} LastIndexOfBefore(a: string, c: char, b: string)
    requires c !in b
    ensures LastIndexOf(a + [c] + b, c) == Some(|a|)
  {
    var s := a + [c] + b;
    if |b| > 0 {
      var b' := b[..|b| - 1];
      assert s[..|s| - 1] == a + [c] + b';
      assert s[|s| - 1] == b[|b| - 1];
      LastIndexOfBefore(a, c, b');
    }
  }

  /** The last segment of `<dir>/<file>` is `file` when it holds no '/'. */
  lemma BasenameOf(dir: string, file: string)
    requires '/' !in file
    ensures Basename(dir + "/" + file) == file
  {
    LastIndexOfBefore(dir, '/', file);
    assert dir + "/" + file == dir + ['/'] + file;
  }

  /** `a` is `b` with some elements left out: what a filter keeps, in the order it had. */
  predicate Subseq<T(==)>(a: seq<T>, b: seq<T>)
    decreases |b|
  {
    a == [] || (|b| > 0 && ((a[0] == b[0] && Subseq(a[1..], b[1..])) || Subseq(a, b[1..])))
  }

  lemma {:induction false} SubseqTrans<T>(a: seq<T>, b: seq<T>, c: seq<T>)
    requires Subseq(a, b) && Subseq(b, c)
    ensures Subseq(a, c)
    decreases |c|
  {
    if a != [] {
      if b[0] == c[0] && Subseq(b[1..], c[1..]) {
        if a[0] == b[0] && Subseq(a[1..], b[1..]) {
          SubseqTrans(a[1..], b[1..], c[1..]);
        } else {
          SubseqTrans(a, b[1..], c[1..]);
        }
      } else {
        SubseqTrans(a, b, c[1..]);
      }
    }
  }

}
