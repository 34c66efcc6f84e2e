/**
 * The Python string built-ins the search core relies on: `str.lower`,
 * the `in` operator on strings, `str.endswith`, `str.replace`,
 * `str.strip`, `str(int)`, `int(digits)` and `str.join`.  Characters are
 * treated as ASCII: Unicode case mapping and Unicode digits are not modelled.
 */
module Text {
  import opened Wrappers

  // ---------------------------------------------------------------- case

  predicate IsUpper(c: char) { 'A' <= c <= 'Z' }

  function LowerChar(c: char): char
  {
    if IsUpper(c) then (c as int + 32) as char else c
  }

  /** `s.lower()` on ASCII: every upper-case letter is replaced by its
      lower-case form and every other character is kept. */
  function Lower(s: string): (r: string)
    ensures |r| == |s|
    ensures forall i :: 0 <= i < |s| ==> !IsUpper(r[i]) && (IsUpper(s[i]) || r[i] == s[i])
    ensures forall i | 0 <= i < |s| && IsUpper(s[i]) ::
      'a' <= r[i] <= 'z' && r[i] as int - 'a' as int == s[i] as int - 'A' as int
  {
    seq(|s|, i requires 0 <= i < |s| => LowerChar(s[i]))
  }

  // ----------------------------------------------------------- substrings

  /** `sub` occurs in `s` starting at position `i`. */
  predicate OccursAt(sub: string, s: string, i: int)
  {
    0 <= i <= |s| - |sub| && s[i..i + |sub|] == sub
  }

  /** Python's `sub in s` for strings: unanchored substring containment. */
  predicate IsSubstring(sub: string, s: string)
  {
    exists i | 0 <= i <= |s| - |sub| :: OccursAt(sub, s, i)
  }

  /** A pattern holding a character that `s` lacks cannot occur in `s`. */
  lemma MissingCharNotSubstring(sub: string, s: string, k: nat)
    requires k < |sub| && sub[k] !in s
    ensures !IsSubstring(sub, s)
  {
  }

  /** `s.endswith(suffix)`. */
  predicate EndsWith(s: string, suffix: string)
  {
    |suffix| <= |s| && s[|s| - |suffix|..] == suffix
  }

  // -------------------------------------------------------------- replace

  /** `s.startswith(pat)`, compared character by character. */
  predicate StartsWith(s: string, pat: string)
    ensures StartsWith(s, pat) <==> |pat| <= |s| && s[..|pat|] == pat
  {
    pat == [] || (s != [] && s[0] == pat[0] && StartsWith(s[1..], pat[1..]))
  }

  /** A text starts with any of its prefixes. */
  lemma PrefixOfAppend(p: string, b: string)
    ensures StartsWith(p + b, p)
  {
    assert (p + b)[..|p|] == p;
  }

  /** Appending to a text keeps what it starts with. */
  lemma StartsWithExtend(a: string, b: string, p: string)
    requires StartsWith(a, p)
    ensures StartsWith(a + b, p)
  {
    assert (a + b)[..|p|] == a[..|p|];
  }

  /** `s.replace(pat, rep)`: every non-overlapping occurrence of `pat`,
      scanning from the left, is replaced by `rep`. */
  function ReplaceAll(s: string, pat: string, rep: string): string
    requires pat != []
    decreases |s|
  {
    if s == [] then []
    else if StartsWith(s, pat) then rep + ReplaceAll(s[|pat|..], pat, rep)
    else [s[0]] + ReplaceAll(s[1..], pat, rep)
  }

  /** Replacing one character by another keeps the length and changes
      exactly the positions that held the replaced character. */
  lemma {:induction false} ReplaceCharSpec(s: string, from: char, to: char)
    ensures |ReplaceAll(s, [from], [to])| == |s|
    ensures forall i :: 0 <= i < |s| ==>
      ReplaceAll(s, [from], [to])[i] == if s[i] == from then to else s[i]
    ensures from != to ==> from !in ReplaceAll(s, [from], [to])
    decreases |s|
  {
    if s != [] {
      ReplaceCharSpec(s[1..], from, to);
      var tail := ReplaceAll(s[1..], [from], [to]);
      assert s[..1] == [s[0]];
      assert ReplaceAll(s, [from], [to]) == [if s[0] == from then to else s[0]] + tail;
    }
  }

  /** Removing a suffix `pat` whose first character does not occur before
      it yields the prefix: `"purchase_intent".replace("_intent", "")`. */
  lemma {:induction false} ReplaceRemovesSuffix(a: string, pat: string)
    requires pat != [] && pat[0] !in a
    ensures ReplaceAll(a + pat, pat, "") == a
    decreases |a|
  {
    if a == [] {
      assert a + pat == pat;
      assert pat[|pat|..] == [];
    } else {
      assert (a + pat)[..|pat|] != pat by {
        assert (a + pat)[0] == a[0];
      }
      assert (a + pat)[1..] == a[1..] + pat;
      ReplaceRemovesSuffix(a[1..], pat);
      assert [a[0]] + a[1..] == a;
    }
  }

  // ---------------------------------------------------------------- strip

  /** The characters `str.strip()` removes, restricted to ASCII. */
  predicate IsSpace(c: char)
  {
    c == ' ' || 9 <= c as int <= 13 || 28 <= c as int <= 31
  }

  function StripLeading(s: string): (r: string)
    ensures |r| <= |s| && r == s[|s| - |r|..]
    ensures forall k :: 0 <= k < |s| - |r| ==> IsSpace(s[k])
    ensures r != [] ==> !IsSpace(r[0])
  {
    if s != [] && IsSpace(s[0]) then StripLeading(s[1..]) else s
  }

  function StripTrailing(s: string): (r: string)
    ensures |r| <= |s| && r == s[..|r|]
    ensures forall k :: |r| <= k < |s| ==> IsSpace(s[k])
    ensures r != [] ==> !IsSpace(r[|r| - 1])
  {
    if s != [] && IsSpace(s[|s| - 1]) then StripTrailing(s[..|s| - 1]) else s
  }

  /** `r` occurs in `s` at `i`, with only white space before and after it. */
  predicate SpaceAround(r: string, s: string, i: nat)
  {
    && OccursAt(r, s, i)
    && (forall k | 0 <= k < i :: IsSpace(s[k]))
    && (forall k | i + |r| <= k < |s| :: IsSpace(s[k]))
  }

  /** `s.strip()`: the slice of `s` left once the leading and trailing
      white space is removed; it is empty exactly when `s` is all white space. */
  function Strip(s: string): (r: string)
    ensures r != [] ==> !IsSpace(r[0]) && !IsSpace(r[|r| - 1])
    ensures r == [] <==> forall k :: 0 <= k < |s| ==> IsSpace(s[k])
    ensures exists i | 0 <= i <= |s| - |r| :: SpaceAround(r, s, i)
  {
    var lead := StripLeading(s);
    var r := StripTrailing(lead);
    StripSlice(s);
    StripDropsSpace(s);
    assert SpaceAround(r, s, |s| - |lead|);
    r
  }

  /** The slice `Strip` keeps sits between a white-space prefix and a
      white-space suffix of `s`. */
  lemma StripDropsSpace(s: string)
    ensures var lead := StripLeading(s); var i := |s| - |lead|; var r := StripTrailing(lead);
      && i + |r| <= |s|
      && (forall k | 0 <= k < i :: IsSpace(s[k]))
      && (forall k | i + |r| <= k < |s| :: IsSpace(s[k]))
  {
    var lead := StripLeading(s);
    var r := StripTrailing(lead);
    SpaceAfterPrefix(s, lead, r);
  }

  /** White space after the prefix `r` of the suffix `lead` of `s` is white
      space of `s` after `r`'s copy there. */
  lemma SpaceAfterPrefix(s: string, lead: string, r: string)
    requires |lead| <= |s| && lead == s[|s| - |lead|..]
    requires |r| <= |lead| && forall k :: |r| <= k < |lead| ==> IsSpace(lead[k])
    ensures forall k | |s| - |lead| + |r| <= k < |s| :: IsSpace(s[k])
  {
    var i := |s| - |lead|;
    forall k | i + |r| <= k < |s|
      ensures IsSpace(s[k])
    {
      assert s[k] == lead[k - i];
    }
  }

  lemma StripSlice(s: string)
    ensures var lead := StripLeading(s);
      OccursAt(StripTrailing(lead), s, |s| - |lead|)
    ensures StripTrailing(StripLeading(s)) == [] ==> forall k :: 0 <= k < |s| ==> IsSpace(s[k])
  {
    var lead := StripLeading(s);
    var r := StripTrailing(lead);
    SliceOfSuffix(s, lead, r);
    if r == [] {
      assert lead == [];
    }
  }

  /** A prefix `r` of a suffix `lead` of `s` occurs in `s` where `lead` starts. */
  lemma SliceOfSuffix(s: string, lead: string, r: string)
    requires |lead| <= |s| && lead == s[|s| - |lead|..]
    requires |r| <= |lead| && r == lead[..|r|]
    ensures OccursAt(r, s, |s| - |lead|)
  {
    var a := |s| - |lead|;
    assert s[a..a + |r|] == s[a..][..|r|];
  }

  // --------------------------------------------------------------- digits

  predicate IsDigit(c: char) { '0' <= c <= '9' }

  predicate AllDigits(s: string)
  {
    forall i :: 0 <= i < |s| ==> IsDigit(s[i])
  }

  function DigitChar(d: nat): (c: char)
    requires d < 10
    ensures IsDigit(c) && c as int - '0' as int == d
  {
    ('0' as int + d) as char
  }

  /** `int(ds)` for a string of decimal digits. */
  function DigitsValue(ds: string): nat
    requires AllDigits(ds)
  {
    if ds == [] then 0
    else DigitsValue(ds[..|ds| - 1]) * 10 + (ds[|ds| - 1] as int - '0' as int)
  }

  lemma DigitsValueSnoc(ds: string, c: char)
    requires AllDigits(ds) && IsDigit(c)
    ensures AllDigits(ds + [c])
    ensures DigitsValue(ds + [c]) == DigitsValue(ds) * 10 + (c as int - '0' as int)
  {
    assert (ds + [c])[..|ds|] == ds;
  }

  /** `str(n)` for a non-negative integer: its decimal digits, with no
      leading zero. */
  function NatToString(n: nat): (r: string)
    ensures r != [] && AllDigits(r)
    ensures |r| > 1 ==> r[0] != '0'
    ensures '.' !in r
  {
    if n < 10 then [DigitChar(n)] else NatToString(n / 10) + [DigitChar(n % 10)]
  }

  lemma {:induction false} NatToStringRoundTrip(n: nat)
    ensures DigitsValue(NatToString(n)) == n
  {
    if n >= 10 {
      NatToStringRoundTrip(n / 10);
      var s := NatToString(n);
      assert s[..|s| - 1] == NatToString(n / 10);
    }
  }

  /** Position of the first `c` in `s`, like `s.find(c)` with -1 as None. */
  function IndexOf(s: string, c: char): (r: Option<nat>)
    ensures r.None? <==> c !in s
    ensures r.Some? ==> r.value < |s| && s[r.value] == c && c !in s[..r.value]
  {
    if s == [] then None
    else if s[0] == c then Some(0)
    else match IndexOf(s[1..], c)
      case None => None
      case Some(i) => assert s[..i + 1] == [s[0]] + s[1..][..i]; Some(i + 1)
  }

  // ----------------------------------------------------------------- join

  /** `sep.join(parts)`. */
  function Join(parts: seq<string>, sep: string): string
  {
    if |parts| == 0 then ""
    else if |parts| == 1 then parts[0]
    else parts[0] + sep + Join(parts[1..], sep)
  }

  /** Appending a part to a non-empty list adds the separator and the part
      at the end of the join. */
  lemma {:induction false} JoinSnoc(parts: seq<string>, x: string, sep: string)
    ensures Join(parts + [x], sep) == if parts == [] then x else Join(parts, sep) + sep + x
    decreases |parts|
  {
    if |parts| >= 2 {
      assert (parts + [x])[1..] == parts[1..] + [x];
      JoinSnoc(parts[1..], x, sep);
    } else if |parts| == 1 {
      assert (parts + [x])[1..] == [x];
    }
  }
}
