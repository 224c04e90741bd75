/** Value types and text helpers shared by the backend and the frontend model:
    an Option type, the character classes and string operations of Python and
    JavaScript that the code relies on, decimal rendering of integers, and
    insertion-ordered dictionaries (Python `dict`, JSON objects). */
module Common {

  datatype Option<+T> = None | Some(value: T)

  datatype Result<+T, +E> = Ok(value: T) | Err(error: E)

  // ------------------------------------------------------------------
  // Characters and strings
  // ------------------------------------------------------------------

  /** Python's `s.replace(from, to)` for one-character arguments. */
  function ReplaceChar(s: string, x: char, y: char): (r: string)
    ensures |r| == |s|
    ensures forall i :: 0 <= i < |s| ==> r[i] == (if s[i] == x then y else s[i])
  {
    if s == [] then [] else [if s[0] == x then y else s[0]] + ReplaceChar(s[1..], x, y)
  }

  function LowerChar(c: char): char
  {
    if 'A' <= c <= 'Z' then (c as int - 'A' as int + 'a' as int) as char else c
  }

  /** `s.lower()` on the ASCII letters; every other character is kept. */
  function Lower(s: string): (r: string)
    ensures |r| == |s|
    ensures forall i :: 0 <= i < |s| ==> r[i] == LowerChar(s[i])
  {
    if s == [] then [] else [LowerChar(s[0])] + Lower(s[1..])
  }

  /** `pat` occurs in `s` starting at position `i`. */
  predicate OccursAt(s: string, pat: string, i: int)
  {
    0 <= i <= |s| - |pat| && s[i..i + |pat|] == pat
  }

  /** Python's `pat in s`: `pat` occurs in `s` as a contiguous block. */
  ghost predicate Contains(s: string, pat: string)
  {
    exists i :: OccursAt(s, pat, i)
  }

  /** A left-to-right scan that decides `Contains`. */
  function Occurs(s: string, pat: string): (b: bool)
    ensures b <==> Contains(s, pat)
    decreases |s|
  {
    if |s| < |pat| then false
    else if s[..|pat|] == pat then assert OccursAt(s, pat, 0); true
    else
      var rest := Occurs(s[1..], pat);
      assert rest ==> Contains(s, pat) by {
        if rest {
          var i :| OccursAt(s[1..], pat, i);
          assert s[1..][i..i + |pat|] == s[i + 1..i + 1 + |pat|];
          assert OccursAt(s, pat, i + 1);
        }
      }
      assert Contains(s, pat) ==> rest by {
        if Contains(s, pat) {
          var i :| OccursAt(s, pat, i);
          assert i != 0;
          assert s[1..][i - 1..i - 1 + |pat|] == s[i..i + |pat|];
          assert OccursAt(s[1..], pat, i - 1);
        }
      }
      rest
  }

  /** The characters JavaScript's `\s` and `String.prototype.trim` treat as
      white space (WhiteSpace and LineTerminator of ECMAScript). */
  predicate IsJsWhitespace(c: char)
  {
    c == '\t' || c == '\n' || c == '\U{B}' || c == '\U{C}' || c == '\r' || c == ' '
    || c == '\U{A0}' || c == '\U{1680}' || ('\U{2000}' <= c <= '\U{200A}')
    || c == '\U{2028}' || c == '\U{2029}' || c == '\U{202F}' || c == '\U{205F}'
    || c == '\U{3000}' || c == '\U{FEFF}'
  }

  predicate AllWhitespace(s: string)
  {
    forall i :: 0 <= i < |s| ==> IsJsWhitespace(s[i])
  }

  /** The number of white-space characters `s` starts with. */
  function LeadingWhitespace(s: string): (k: nat)
    ensures k <= |s|
    ensures forall i :: 0 <= i < k ==> IsJsWhitespace(s[i])
    ensures k < |s| ==> !IsJsWhitespace(s[k])
  {
    if s != [] && IsJsWhitespace(s[0]) then 1 + LeadingWhitespace(s[1..]) else 0
  }

  /** The number of white-space characters `s` ends with. */
  function TrailingWhitespace(s: string): (k: nat)
    ensures k <= |s|
    ensures forall i :: |s| - k <= i < |s| ==> IsJsWhitespace(s[i])
    ensures k < |s| ==> !IsJsWhitespace(s[|s| - 1 - k])
  {
    if s != [] && IsJsWhitespace(s[|s| - 1]) then 1 + TrailingWhitespace(s[..|s| - 1]) else 0
  }

  /** JavaScript's `s.trim()`: `s` without its leading and trailing white space. */
  function Trim(s: string): (r: string)
    ensures r == [] <==> AllWhitespace(s)
    ensures r != [] ==> !IsJsWhitespace(r[0]) && !IsJsWhitespace(r[|r| - 1])
  {
    var a := LeadingWhitespace(s);
    if a == |s| then []
    else
      var b := TrailingWhitespace(s);
      assert !IsJsWhitespace(s[a]);
      s[a..|s| - b]
  }

  // ------------------------------------------------------------------
  // Decimal rendering (Python `str(n)`, JavaScript template `${n}`)
  // ------------------------------------------------------------------

  predicate IsDigit(c: char) { '0' <= c <= '9' }

  predicate AllDigits(s: string) { forall i :: 0 <= i < |s| ==> IsDigit(s[i]) }

  function DigitChar(d: nat): (c: char)
    requires d < 10
    ensures IsDigit(c) && c as int - '0' as int == d
  {
    ('0' as int + d) as char
  }

  /** The shortest decimal representation of `n`. */
  function NatToString(n: nat): (r: string)
    ensures |r| >= 1 && AllDigits(r)
    ensures r[0] == '0' ==> n == 0
    decreases n
  {
    if n < 10 then [DigitChar(n)] else NatToString(n / 10) + [DigitChar(n % 10)]
  }

  /** The value of a string of decimal digits (the partner of `NatToString`). */
  function ParseNat(s: string): nat
    requires AllDigits(s)
  {
    if s == [] then 0 else ParseNat(s[..|s| - 1]) * 10 + (s[|s| - 1] as int - '0' as int)
  }

  lemma {:induction false} ParseNatToString(n: nat)
    ensures ParseNat(NatToString(n)) == n
    decreases n
  {
    if n >= 10 {
      var s := NatToString(n);
      assert s[..|s| - 1] == NatToString(n / 10);
      ParseNatToString(n / 10);
    }
  }

  lemma NatToStringInjective(m: nat, n: nat)
    requires NatToString(m) == NatToString(n)
    ensures m == n
  {
    ParseNatToString(m);
    ParseNatToString(n);
  }

  // ------------------------------------------------------------------
  // Insertion-ordered dictionaries
  // ------------------------------------------------------------------

  /** A JSON scalar: the values an `additional_data` object can carry. */
  datatype Scalar = JString(s: string) | JInt(i: int) | JBool(b: bool) | JNull

  /** A Python `dict` / JSON object: key-value pairs in insertion order. */
  type Dict = seq<(string, Scalar)>

  function Keys(d: Dict): (ks: seq<string>)
    ensures |ks| == |d| && forall i :: 0 <= i < |d| ==> ks[i] == d[i].0
  {
    if d == [] then [] else [d[0].0] + Keys(d[1..])
  }

  /** Keys are pairwise distinct, as in every `dict`. */
  predicate IsDict(d: Dict)
  {
    forall i, j :: 0 <= i < j < |d| ==> d[i].0 != d[j].0
  }

  /** The position of the first pair with key `k`, if any. */
  function KeyIndex(d: Dict, k: string): (r: Option<nat>)
    ensures r.Some? ==> r.value < |d| && d[r.value].0 == k
    ensures r.Some? ==> forall j :: 0 <= j < r.value ==> d[j].0 != k
    ensures r.None? ==> k !in Keys(d)
  {
    if d == [] then None
    else if d[0].0 == k then Some(0)
    else match KeyIndex(d[1..], k)
      case None => assert Keys(d) == [d[0].0] + Keys(d[1..]); None
      case Some(i) => Some(i + 1)
  }

  /** `d.get(k)`. */
  function Lookup(d: Dict, k: string): (r: Option<Scalar>)
    ensures r.None? <==> k !in Keys(d)
  {
    match KeyIndex(d, k)
    case None => None
    case Some(i) => assert Keys(d)[i] == k; Some(d[i].1)
  }

  /** `d[k] = v`: an existing key keeps its position and takes the new value;
      a new key goes at the end. */
  function Put(d: Dict, k: string, v: Scalar): (r: Dict)
    ensures IsDict(d) ==> IsDict(r)
    ensures Keys(r) == if k in Keys(d) then Keys(d) else Keys(d) + [k]
  {
    match KeyIndex(d, k)
    case Some(i) =>
      var r := d[i := (k, v)];
      assert Keys(d)[i] == k;
      assert Keys(r) == Keys(d);
      r
    case None =>
      var r := d + [(k, v)];
      assert Keys(r) == Keys(d) + [k];
      r
  }

  /** After `d[k] = v`, `k` reads `v` and every other key reads what it read before. */
  lemma PutLookup(d: Dict, k: string, v: Scalar, k': string)
    ensures Lookup(Put(d, k, v), k') == if k' == k then Some(v) else Lookup(d, k')
  {
    var r := Put(d, k, v);
    match KeyIndex(d, k)
    case Some(i) =>
      if k' != k { KeyIndexSame(d, r, k'); }
    case None =>
      if k' != k { KeyIndexSame(d, r, k'); }
  }

  /** Two dictionaries that agree on where `k` first appears give it the same position. */
  lemma {:induction false} KeyIndexSame(d: Dict, r: Dict, k: string)
    requires |d| <= |r|
    requires forall j :: 0 <= j < |d| ==> (d[j].0 == k <==> r[j].0 == k) && (d[j].0 == k ==> r[j] == d[j])
    requires forall j :: |d| <= j < |r| ==> r[j].0 != k
    ensures KeyIndex(r, k) == KeyIndex(d, k)
    ensures match KeyIndex(d, k) case None => true case Some(i) => r[i] == d[i]
  {
    if d != [] && d[0].0 != k {
      KeyIndexSame(d[1..], r[1..], k);
    } else if d == [] && r != [] {
      KeyIndexSame(d, r[1..], k);
    }
  }

  /** The keys of `ks` that are not in `seen`, in order. */
  function Unseen(ks: seq<string>, seen: seq<string>): (r: seq<string>)
    ensures forall i :: 0 <= i < |r| ==> r[i] in ks && r[i] !in seen
  {
    if ks == [] then [] else (if ks[0] in seen then [] else [ks[0]]) + Unseen(ks[1..], seen)
  }

  /** `{**d, **e}` restricted to `d` already built: every pair of `e` is put
      into `d`, in order. */
  function Spread(d: Dict, e: Dict): Dict
    decreases |e|
  {
    if e == [] then d else Spread(Put(d, e[0].0, e[0].1), e[1..])
  }

  /** A key of `e` takes its value from `e`; any other keeps the one of `d`. */
  lemma {:induction false} SpreadLookup(d: Dict, e: Dict, k: string)
    requires IsDict(e)
    ensures Lookup(Spread(d, e), k) == if k in Keys(e) then Lookup(e, k) else Lookup(d, k)
    decreases |e|
  {
    if e != [] {
      var d', e' := Put(d, e[0].0, e[0].1), e[1..];
      assert IsDict(e');
      SpreadLookup(d', e', k);
      PutLookup(d, e[0].0, e[0].1, k);
      LookupFirstPair(e, k);
    }
  }

  /** Looking up in a dictionary: its first key, or the rest of it. */
  lemma LookupFirstPair(e: Dict, k: string)
    requires IsDict(e) && e != []
    ensures k in Keys(e) <==> k == e[0].0 || k in Keys(e[1..])
    ensures k == e[0].0 ==> Lookup(e, k) == Some(e[0].1) && k !in Keys(e[1..])
    ensures k != e[0].0 ==> Lookup(e, k) == Lookup(e[1..], k)
  {
    assert Keys(e) == [e[0].0] + Keys(e[1..]);
    if k == e[0].0 {
      assert KeyIndex(e, k) == Some(0);
    }
  }

  /** The keys of `d` stay in place; the new keys of `e` follow, in `e`'s order. */
  lemma {:induction false} SpreadKeys(d: Dict, e: Dict)
    requires IsDict(e)
    ensures Keys(Spread(d, e)) == Keys(d) + Unseen(Keys(e), Keys(d))
    decreases |e|
  {
    if e != [] {
      var k := e[0].0;
      var d' := Put(d, k, e[0].1);
      var e' := e[1..];
      assert IsDict(e');
      SpreadKeys(d', e');
      assert Keys(e) == [k] + Keys(e');
      assert k !in Keys(e');
      UnseenExtend(Keys(e'), Keys(d), k);
      var added := if k in Keys(d) then [] else [k];
      assert Keys(d') == Keys(d) + added;
      assert Unseen(Keys(e), Keys(d)) == added + Unseen(Keys(e'), Keys(d));
      calc {
        Keys(Spread(d, e));
        Keys(Spread(d', e'));
        Keys(d') + Unseen(Keys(e'), Keys(d'));
        Keys(d) + added + Unseen(Keys(e'), Keys(d));
        { ConcatAssoc(Keys(d), added, Unseen(Keys(e'), Keys(d))); }
        Keys(d) + (added + Unseen(Keys(e'), Keys(d)));
        Keys(d) + Unseen(Keys(e), Keys(d));
      }
    } else {
      assert Keys(e) == [];
      assert Unseen(Keys(e), Keys(d)) == [];
      assert Keys(d) + [] == Keys(d);
    }
  }

  lemma ConcatAssoc(a: seq<string>, b: seq<string>, c: seq<string>)
    ensures a + b + c == a + (b + c)
  {
  }

  lemma {:induction false} UnseenExtend(ks: seq<string>, seen: seq<string>, k: string)
    requires k !in ks
    ensures Unseen(ks, if k in seen then seen else seen + [k]) == Unseen(ks, seen)
  {
    if ks != [] {
      UnseenExtend(ks[1..], seen, k);
    }
  }

  lemma {:induction false} SpreadIsDict(d: Dict, e: Dict)
    requires IsDict(d)
    ensures IsDict(Spread(d, e))
    decreases |e|
  {
    if e != [] {
      SpreadIsDict(Put(d, e[0].0, e[0].1), e[1..]);
    }
  }
}
