/**
 Text operations the program takes from its standard library, with the laws the proofs need:
 splitting and joining, decimal numbers, blanks, and the order of strings.
 */
module Text {
  import opened Wrappers

  // Splitting and joining ------------------------------------------------------------------------

  function Split(s: string, sep: char): (parts: seq<string>)
    ensures |parts| > 0
  {
    if s == [] then [[]]
    else
      var rest := Split(s[1..], sep);
      if s[0] == sep then [[]] + rest else [[s[0]] + rest[0]] + rest[1..]
  }

  function Join(parts: seq<string>, sep: string): string {
    if parts == [] then []
    else if |parts| == 1 then parts[0]
    else parts[0] + sep + Join(parts[1..], sep)
  }

  lemma {:induction false} JoinSplit(s: string, sep: char)
    ensures Join(Split(s, sep), [sep]) == s
  {
    if s != [] {
      JoinSplit(s[1..], sep);
      var rest := Split(s[1..], sep);
      if s[0] != sep && |rest| > 1 {
        assert ([[s[0]] + rest[0]] + rest[1..])[1..] == rest[1..];
      } else if s[0] == sep {
        assert ([[]] + rest)[1..] == rest;
      }
    }
  }

  lemma {:induction false} JoinLast(parts: seq<string>, sep: string)
    requires |parts| > 1
    ensures Join(parts, sep) == Join(parts[..|parts| - 1], sep) + sep + parts[|parts| - 1]
  {
    if |parts| > 2 {
      JoinLast(parts[1..], sep);
      assert parts[1..][..|parts| - 2] == parts[..|parts| - 1][1..];
    } else {
      assert parts[..1] == [parts[0]] && parts[1..] == [parts[1]];
    }
  }

  lemma {:induction false} SplitConcat(a: string, sep: char, b: string)
    ensures Split(a + [sep] + b, sep) == Split(a, sep) + Split(b, sep)
  {
    if a == [] {
      assert (a + [sep] + b)[1..] == b;
    } else {
      assert (a + [sep] + b)[1..] == a[1..] + [sep] + b;
      SplitConcat(a[1..], sep, b);
    }
  }

  /** A string is its own only part exactly when the separator does not occur in it. */
  lemma {:induction false} SplitOne(a: string, sep: char)
    ensures sep !in a ==> Split(a, sep) == [a]
    ensures sep in a ==> |Split(a, sep)| > 1
  {
    if a != [] {
      SplitOne(a[1..], sep);
      assert a == [a[0]] + a[1..];
    }
  }

  lemma {:induction false} SplitJoin(parts: seq<string>, sep: char)
    requires parts != [] && forall p :: p in parts ==> sep !in p
    ensures Split(Join(parts, [sep]), sep) == parts
  {
    SplitOne(parts[0], sep);
    if |parts| > 1 {
      SplitConcat(parts[0], sep, Join(parts[1..], [sep]));
      SplitJoin(parts[1..], sep);
    }
  }

  // Decimal numbers ------------------------------------------------------------------------------

  predicate IsDigit(c: char) {
    '0' <= c <= '9'
  }

  function Digit(d: nat): char
    requires d < 10
  {
    '0' + d as char
  }

  function FormatNat(n: nat): (s: string)
    ensures s != [] && forall c :: c in s ==> IsDigit(c)
  {
    if n < 10 then [Digit(n)] else FormatNat(n / 10) + [Digit(n % 10)]
  }

  function FormatInt(n: int): string {
    if n < 0 then "-" + FormatNat(-n) else FormatNat(n)
  }

  function ParseNat(s: string): Option<nat> {
    if s == [] || !IsDigit(s[|s| - 1]) then None
    else
      var d := (s[|s| - 1] - '0') as nat;
      if |s| == 1 then Some(d)
      else match ParseNat(s[..|s| - 1])
        case None => None
        case Some(n) => Some(10 * n + d)
  }

  const INT64: int := 0x8000_0000_0000_0000

  /** strconv.ParseInt in base 10 with 64 bits. */
  function ParseInt(s: string): Option<int> {
    if s == [] then None
    else
      var signed := s[0] == '-' || s[0] == '+';
      match ParseNat(if signed then s[1..] else s)
      case None => None
      case Some(n) =>
        var m: int := n;
        var v := if s[0] == '-' then -m else m;
        if IsInt64(v) then Some(v) else None
  }

  lemma {:induction false} ParseFormatNat(n: nat)
    ensures ParseNat(FormatNat(n)) == Some(n)
  {
    if n >= 10 {
      ParseFormatNat(n / 10);
      var s := FormatNat(n);
      assert s[..|s| - 1] == FormatNat(n / 10);
    }
  }

  predicate IsInt64(n: int) {
    -INT64 <= n < INT64
  }

  lemma ParseFormatInt(n: int)
    ensures ParseInt(FormatInt(n)) == if IsInt64(n) then Some(n) else None
  {
    var s := FormatInt(n);
    if n < 0 {
      ParseFormatNat(-n);
      assert s[0] == '-' && s[1..] == FormatNat(-n);
    } else {
      ParseFormatNat(n);
      assert FormatNat(n)[0] in FormatNat(n);
    }
    hide FormatNat, ParseNat, FormatInt;
  }

  lemma FormatIntHasNo(n: int, c: char)
    requires !IsDigit(c) && c != '-'
    ensures c !in FormatInt(n)
  {
  }

  // Blanks ---------------------------------------------------------------------------------------

  /** unicode.IsSpace */
  predicate IsSpace(c: char) {
    || '\t' <= c <= '\r' || c == ' ' || c == '\U{85}' || c == '\U{A0}' || c == '\U{1680}'
    || '\U{2000}' <= c <= '\U{200a}' || c == '\U{2028}' || c == '\U{2029}' || c == '\U{202f}'
    || c == '\U{205f}' || c == '\U{3000}'
  }

  function TrimLeft(s: string): (r: string)
    ensures |r| <= |s| && r == s[|s| - |r|..] && (r != [] ==> !IsSpace(r[0]))
    ensures r == [] <==> forall c :: c in s ==> IsSpace(c)
  {
    if s == [] || !IsSpace(s[0]) then s else TrimLeft(s[1..])
  }

  lemma {:induction false} TrimLeftBlanks(a: string, s: string)
    requires forall c :: c in a ==> IsSpace(c)
    ensures TrimLeft(a + s) == TrimLeft(s)
  {
    if a == [] {
      assert a + s == s;
    } else {
      assert (a + s)[1..] == a[1..] + s;
      TrimLeftBlanks(a[1..], s);
    }
  }

  lemma {:induction false} TrimRightBlanks(s: string, b: string)
    requires forall c :: c in b ==> IsSpace(c)
    ensures TrimRight(s + b) == TrimRight(s)
  {
    if b == [] {
      assert s + b == s;
    } else {
      assert (s + b)[..|s + b| - 1] == s + b[..|b| - 1];
      TrimRightBlanks(s, b[..|b| - 1]);
    }
  }

  function TrimRight(s: string): (r: string)
    ensures r <= s
    ensures r != [] ==> !IsSpace(r[|r| - 1])
    ensures r == [] <==> forall c :: c in s ==> IsSpace(c)
  {
    if s == [] || !IsSpace(s[|s| - 1]) then s else TrimRight(s[..|s| - 1])
  }

  function TrimSpace(s: string): (r: string)
    ensures r != [] ==> !IsSpace(r[0]) && !IsSpace(r[|r| - 1])
    ensures r == [] <==> forall c :: c in s ==> IsSpace(c)
  {
    TrimRight(TrimLeft(s))
  }

  /** Blanks on both sides go, and nothing else does. */
  lemma TrimSpaceTakesBlanks(a: string, s: string, b: string)
    requires forall c :: c in a + b ==> IsSpace(c)
    requires s != [] ==> !IsSpace(s[0]) && !IsSpace(s[|s| - 1])
    ensures TrimSpace(a + s + b) == s
  {
    assert forall c :: c in a ==> c in a + b;
    assert forall c :: c in b ==> c in a + b;
    assert a + s + b == a + (s + b);
    TrimLeftBlanks(a, s + b);
    if s == [] {
      assert s + b == b;
    } else {
      assert TrimLeft(s + b) == s + b;
      TrimRightBlanks(s, b);
    }
  }

  /** strings.Fields: the maximal runs of characters that are not blanks. */
  function Fields(s: string): seq<string> {
    FieldsFrom(s, [])
  }

  function FieldsFrom(s: string, word: string): seq<string> {
    if s == [] then if word == [] then [] else [word]
    else if IsSpace(s[0]) then (if word == [] then [] else [word]) + FieldsFrom(s[1..], [])
    else FieldsFrom(s[1..], word + [s[0]])
  }

  predicate IsWord(w: string) {
    w != [] && forall c :: c in w ==> !IsSpace(c)
  }

  lemma {:induction false} FieldsAreWords(s: string, word: string)
    requires word == [] || IsWord(word)
    ensures forall w :: w in FieldsFrom(s, word) ==> IsWord(w)
  {
    if s != [] {
      FieldsAreWords(s[1..], if IsSpace(s[0]) then [] else word + [s[0]]);
    }
  }

  lemma {:induction false} FieldsOfWord(w: string, word: string, rest: string)
    requires forall c :: c in w ==> !IsSpace(c)
    ensures FieldsFrom(w + rest, word) == FieldsFrom(rest, word + w)
  {
    if w == [] {
      assert w + rest == rest && word + w == word;
    } else {
      assert (w + rest)[1..] == w[1..] + rest;
      FieldsOfWord(w[1..], word + [w[0]], rest);
      assert word + [w[0]] + w[1..] == word + w;
    }
  }

  /** A blank anywhere separates: with FieldsJoin for one word, this says all about Fields. */
  lemma FieldsAtBlank(a: string, c: char, b: string)
    requires IsSpace(c)
    ensures Fields(a + [c] + b) == Fields(a) + Fields(b)
  {
    FieldsFromAtBlank(a, c, b, []);
  }

  lemma {:induction false} FieldsFromAtBlank(a: string, c: char, b: string, word: string)
    requires IsSpace(c)
    ensures FieldsFrom(a + [c] + b, word) == FieldsFrom(a, word) + FieldsFrom(b, [])
    decreases |a|
  {
    if a == [] {
      assert (a + [c] + b)[1..] == b;
    } else {
      assert (a + [c] + b)[1..] == a[1..] + [c] + b;
      FieldsFromAtBlank(a[1..], c, b, if IsSpace(a[0]) then [] else word + [a[0]]);
    }
  }

  /** Leading and trailing blanks make no difference. */
  lemma FieldsAroundBlanks(c: char, s: string)
    requires IsSpace(c)
    ensures Fields([c] + s) == Fields(s) == Fields(s + [c])
  {
    assert [] + [c] + s == [c] + s && s + [c] + [] == s + [c];
    FieldsAtBlank([], c, s);
    FieldsAtBlank(s, c, []);
  }

  /** Words printed with single spaces between them read back as they were. */
  lemma {:induction false} FieldsJoin(words: seq<string>)
    requires forall w :: w in words ==> IsWord(w)
    ensures Fields(Join(words, " ")) == words
  {
    if words != [] {
      var w := words[0];
      assert w in words;
      if |words| == 1 {
        assert w + [] == w && [] + w == w;
        FieldsOfWord(w, [], []);
      } else {
        var tail := Join(words[1..], " ");
        assert Join(words, " ") == w + (" " + tail);
        FieldsOfWord(w, [], " " + tail);
        assert [] + w == w && (" " + tail)[1..] == tail;
        FieldsJoin(words[1..]);
      }
    }
  }

  // Lists without blanks and repeats -------------------------------------------------------------

  function Trimmed(values: seq<string>): seq<string> {
    seq(|values|, i requires 0 <= i < |values| => TrimSpace(values[i]))
  }

  /** The values that are not empty, each at its first place. */
  function Distinct(values: seq<string>): seq<string> {
    if values == [] then []
    else
      var front, last := Distinct(values[..|values| - 1]), values[|values| - 1];
      if last == "" || last in front then front else front + [last]
  }

  lemma {:induction false} DistinctMembers(values: seq<string>, v: string)
    ensures v in Distinct(values) <==> v != "" && v in values
  {
    if values != [] {
      DistinctMembers(values[..|values| - 1], v);
      assert values == values[..|values| - 1] + [values[|values| - 1]];
    }
  }

  lemma {:induction false} DistinctOnce(values: seq<string>, a: nat, b: nat)
    requires a < b < |Distinct(values)|
    ensures Distinct(values)[a] != Distinct(values)[b]
  {
    if b < |Distinct(values[..|values| - 1])| {
      DistinctOnce(values[..|values| - 1], a, b);
    }
  }

  /** Order is kept: wherever a later result occurs, an earlier one has occurred before. */
  lemma {:induction false} DistinctOrder(values: seq<string>, a: nat, b: nat, j: nat)
    requires a < b < |Distinct(values)| && j < |values| && values[j] == Distinct(values)[b]
    ensures exists i :: 0 <= i < j && values[i] == Distinct(values)[a]
  {
    var n := |values| - 1;
    var front := values[..n];
    var x, y := Distinct(values)[a], Distinct(values)[b];
    DistinctMembers(front, x);
    DistinctMembers(front, y);
    assert forall i :: 0 <= i < n ==> values[i] in front;
    if b < |Distinct(front)| {
      var k :| 0 <= k < n && front[k] == y;
      k := if j < n then j else k;
      DistinctOrder(front, a, b, k);
    }
  }

  // The order of strings -------------------------------------------------------------------------

  predicate Less(a: string, b: string) {
    b != [] && (a == [] || a[0] < b[0] || (a[0] == b[0] && Less(a[1..], b[1..])))
  }

  /** The first difference decides, and a string comes before its extensions. */
  lemma {:induction false} LessMeans(p: string, a: char, x: string, b: char, y: string)
    requires a < b
    ensures Less(p + [a] + x, p + [b] + y) && Less(p, p + [a] + x)
  {
    if p != [] {
      assert (p + [a] + x)[1..] == p[1..] + [a] + x && (p + [b] + y)[1..] == p[1..] + [b] + y;
      LessMeans(p[1..], a, x, b, y);
    }
  }

  predicate AtMost(a: string, b: string) {
    a == b || Less(a, b)
  }

  lemma {:induction false} LessIsTotal(a: string, b: string)
    ensures a == b || Less(a, b) || Less(b, a)
  {
    if a != [] && b != [] && a[0] == b[0] {
      LessIsTotal(a[1..], b[1..]);
      assert a == [a[0]] + a[1..] && b == [b[0]] + b[1..];
    }
  }

  lemma {:induction false} LessIsTransitive(a: string, b: string, c: string)
    requires Less(a, b) && Less(b, c)
    ensures Less(a, c)
  {
    if a != [] && a[0] == b[0] && b[0] == c[0] {
      LessIsTransitive(a[1..], b[1..], c[1..]);
    }
  }

  lemma {:induction false} LessIsStrict(a: string, b: string)
    ensures !(Less(a, b) && Less(b, a)) && !Less(a, a)
  {
    if a != [] {
      if b != [] {
        LessIsStrict(a[1..], b[1..]);
      } else {
        LessIsStrict(a[1..], []);
      }
    }
  }

  predicate IsLeast(x: string, s: set<string>) {
    x in s && forall y :: y in s ==> AtMost(x, y)
  }

  lemma {:induction false} LeastExists(s: set<string>)
    requires s != {}
    ensures exists x :: IsLeast(x, s)
  {
    var y :| y in s;
    if s == {y} {
      assert IsLeast(y, s);
    } else {
      var rest := s - {y};
      assert rest != {};
      LeastExists(rest);
      var x :| IsLeast(x, rest);
      LessIsTotal(x, y);
      if AtMost(x, y) {
        assert IsLeast(x, s);
      } else {
        forall z | z in s
          ensures AtMost(y, z)
        {
          assert z != y ==> z in rest && AtMost(x, z);
          if z != y && z != x {
            LessIsTransitive(y, x, z);
          }
        }
        assert IsLeast(y, s);
      }
    }
  }

  lemma LeastIsUnique(x: string, y: string, s: set<string>)
    requires IsLeast(x, s) && IsLeast(y, s)
    ensures x == y
  {
    LessIsStrict(x, y);
  }

  /** The elements of a set in increasing order. */
  function Sorted(s: set<string>): (r: seq<string>)
    ensures forall x :: x in r <==> x in s
    ensures forall i, j :: 0 <= i < j < |r| ==> Less(r[i], r[j])
  {
    if s == {} then []
    else
      LeastExists(s);
      assert forall x, y :: IsLeast(x, s) && IsLeast(y, s) ==> x == y by {
        forall x, y | IsLeast(x, s) && IsLeast(y, s)
          ensures x == y
        {
          LeastIsUnique(x, y, s);
        }
      }
      var x :| x in s && IsLeast(x, s);
      var rest := Sorted(s - {x});
      assert forall j :: 0 <= j < |rest| ==> rest[j] in s - {x};
      assert forall y :: y in s - {x} ==> AtMost(x, y);
      [x] + rest
  }
}
