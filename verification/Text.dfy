/** Strings as the source compares, splits, joins and orders them. */
module Text {
  import opened Wrappers

  type Byte = n: nat | n < 256

  predicate Digits(s: string) {
    forall i | 0 <= i < |s| :: '0' <= s[i] <= '9'
  }

  function Decimal(s: string): nat
    requires Digits(s)
  {
    if s == "" then 0 else Decimal(s[..|s| - 1]) * 10 + (s[|s| - 1] as int - '0' as int)
  }

  function DecimalText(n: nat): string {
    if n < 10 then [('0' as int + n) as char] else DecimalText(n / 10) + [('0' as int + n % 10) as char]
  }

  lemma {:induction false} DecimalReadsBack(n: nat)
    ensures DecimalText(n) != "" && Digits(DecimalText(n)) && Decimal(DecimalText(n)) == n
    ensures n > 0 ==> DecimalText(n)[0] != '0'
  {
    if n >= 10 {
      DecimalReadsBack(n / 10);
      var most, last := DecimalText(n / 10), ('0' as int + n % 10) as char;
      assert DecimalText(n) == most + [last];
      assert (most + [last])[..|most|] == most;
    } else {
      assert DecimalText(n)[..0] == "";
    }
  }

  lemma {:induction false} LeadingZero(s: string)
    requires Digits(s)
    ensures Digits("0" + s) && Decimal("0" + s) == Decimal(s)
    decreases |s|
  {
    if s == "" {
      assert ("0" + s)[..0] == "";
    } else {
      LeadingZero(s[..|s| - 1]);
      assert ("0" + s)[..|s|] == "0" + s[..|s| - 1];
    }
  }

  /** A hexadecimal digit whose letters start at `ten`. */
  function HexDigit(n: nat, ten: char): char
    requires n < 16 && (ten == 'a' || ten == 'A')
  {
    if n < 10 then ('0' as int + n) as char else (ten as int + n - 10) as char
  }

  function HexValue(c: char): (r: Option<nat>)
    ensures r.Some? ==> r.value < 16 && (c == HexDigit(r.value, 'a') || c == HexDigit(r.value, 'A'))
  {
    if '0' <= c <= '9' then Some(c as int - '0' as int)
    else if 'a' <= c <= 'f' then Some(c as int - 'a' as int + 10)
    else if 'A' <= c <= 'F' then Some(c as int - 'A' as int + 10)
    else None
  }

  function Lower(ch: char): char {
    if 'A' <= ch <= 'Z' then (ch as int + 32) as char else ch
  }

  predicate EqIgnoreCase(a: string, b: string) {
    |a| == |b| && forall i | 0 <= i < |a| :: Lower(a[i]) == Lower(b[i])
  }

  lemma EqIgnoreCaseIsEquivalence(a: string, b: string, c: string)
    ensures EqIgnoreCase(a, a)
    ensures EqIgnoreCase(a, b) ==> EqIgnoreCase(b, a)
    ensures EqIgnoreCase(a, b) && EqIgnoreCase(b, c) ==> EqIgnoreCase(a, c)
  {
  }

  /** Characters compare equal if they are equal or the two cases of one ASCII letter. */
  lemma LowerExactly(a: char, b: char)
    ensures Lower(a) == Lower(b) <==>
            a == b || ('A' <= a <= 'Z' && b as int == a as int + 32) || ('A' <= b <= 'Z' && a as int == b as int + 32)
  {
  }

  /** All pieces between separators; the empty string has one empty piece. */
  function Split(s: string, c: char): (r: seq<string>)
    ensures |r| > 0 && forall p | p in r :: c !in p
  {
    if s == "" then [""]
    else
      var rest := Split(s[1..], c);
      if s[0] == c then [""] + rest else [[s[0]] + rest[0]] + rest[1..]
  }

  function Join(ps: seq<string>, c: char): string {
    if ps == [] then "" else if |ps| == 1 then ps[0] else ps[0] + [c] + Join(ps[1..], c)
  }

  /** The text before and after the first separator. */
  function SplitOnce(s: string, c: char): (r: Option<(string, string)>)
    ensures r.None? <==> c !in s
    ensures r.Some? ==> c !in r.value.0 && s == r.value.0 + [c] + r.value.1
  {
    if s == "" then None
    else if s[0] == c then Some(("", s[1..]))
    else
      match SplitOnce(s[1..], c)
      case None => None
      case Some((k, v)) => Some(([s[0]] + k, v))
  }

  lemma {:induction false} SplitOnceAt(k: string, v: string, c: char)
    requires c !in k
    ensures SplitOnce(k + [c] + v, c) == Some((k, v))
  {
    var s := k + [c] + v;
    if k == "" {
      assert s[1..] == v;
    } else {
      SplitOnceAt(k[1..], v, c);
      assert s[1..] == k[1..] + [c] + v && s[0] == k[0];
      assert k == [k[0]] + k[1..];
    }
  }

  lemma {:induction false} SplitFirst(p: string, rest: string, c: char)
    requires c !in p
    ensures Split(p, c) == [p]
    ensures Split(p + [c] + rest, c) == [p] + Split(rest, c)
  {
    var s := p + [c] + rest;
    if p == "" {
      assert s[1..] == rest;
    } else {
      SplitFirst(p[1..], rest, c);
      assert s[1..] == p[1..] + [c] + rest;
      assert p == [p[0]] + p[1..];
    }
  }

  /** Splitting what was joined gives the pieces back. */
  lemma {:induction false} SplitJoin(ps: seq<string>, c: char)
    requires ps != [] && forall p | p in ps :: c !in p
    ensures Split(Join(ps, c), c) == ps
  {
    if |ps| == 1 {
      SplitFirst(ps[0], "", c);
    } else {
      SplitJoin(ps[1..], c);
      SplitFirst(ps[0], Join(ps[1..], c), c);
      assert ps == [ps[0]] + ps[1..];
    }
  }

  /** The first field is what precedes the first separator. */
  lemma {:induction false} FirstField(s: string, c: char)
    ensures Split(s, c)[0] == match SplitOnce(s, c) case None => s case Some((k, v)) => k
  {
    if s != "" && s[0] != c {
      FirstField(s[1..], c);
    }
  }

  /** Order by code point, which is the byte order of UTF-8. */
  predicate LexLeq(a: string, b: string) {
    a == "" || (b != "" && (a[0] < b[0] || (a[0] == b[0] && LexLeq(a[1..], b[1..]))))
  }

  /** The first k characters agree, and then a ends or has the smaller character. */
  predicate DiffersUpwards(a: string, b: string, k: nat) {
    k <= |a| && k <= |b| && a[..k] == b[..k] && (k == |a| || (k < |b| && a[k] < b[k]))
  }

  lemma {:induction false} LexLeqExactlyWhen(a: string, b: string)
    ensures LexLeq(a, b) <==> exists k: nat :: DiffersUpwards(a, b, k)
  {
    if a == "" {
      assert DiffersUpwards(a, b, 0);
    } else if b != "" {
      LexLeqExactlyWhen(a[1..], b[1..]);
      if LexLeq(a, b) {
        if a[0] < b[0] {
          assert DiffersUpwards(a, b, 0);
        } else {
          var k: nat :| DiffersUpwards(a[1..], b[1..], k);
          assert a[..k + 1] == [a[0]] + a[1..][..k] && b[..k + 1] == [b[0]] + b[1..][..k];
          assert DiffersUpwards(a, b, k + 1);
        }
      }
      if k: nat :| DiffersUpwards(a, b, k) && k > 0 {
        assert a[..k][0] == b[..k][0];
        assert a[1..][..k - 1] == a[..k][1..] && b[1..][..k - 1] == b[..k][1..];
        assert DiffersUpwards(a[1..], b[1..], k - 1);
      }
    }
  }

  lemma {:induction false} LexTotal(a: string, b: string)
    ensures LexLeq(a, b) || LexLeq(b, a)
    ensures LexLeq(a, b) && LexLeq(b, a) ==> a == b
  {
    if a != "" && b != "" && a[0] == b[0] {
      LexTotal(a[1..], b[1..]);
      assert a == [a[0]] + a[1..] && b == [b[0]] + b[1..];
    }
  }

  lemma {:induction false} LexTransitive(a: string, b: string, c: string)
    requires LexLeq(a, b) && LexLeq(b, c)
    ensures LexLeq(a, c)
  {
    if a != "" && a[0] == b[0] && b[0] == c[0] {
      LexTransitive(a[1..], b[1..], c[1..]);
    }
  }
}
