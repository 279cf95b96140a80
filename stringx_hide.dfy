/**
 * Masking helpers of package stringx.
 *
 * A Go string is converted to its runes before it is cut, so strings are
 * modelled here as sequences of code points (`string` is `seq<char>`).
 */
module Stringx {
  import opened Wrappers

  /** The number of runes `Hide` always puts between the kept ends. */
  const MiddleMasks: nat := 4

  /** Every rune of `r` is `mask`. */
  predicate AllMask(r: string, mask: char)
  {
    forall i :: 0 <= i < |r| ==> r[i] == mask
  }

  /** `strings.Repeat(string(mask), n)`: `n` copies of one rune. */
  function Repeat(mask: char, n: nat): (r: string)
    ensures |r| == n && AllMask(r, mask)
  {
    if n == 0 then [] else [mask] + Repeat(mask, n - 1)
  }

  /**
   * `Hide(s, prefix, suffix, mask)` for non-negative counts. A string of at
   * most `prefix + suffix` runes is masked completely; a longer one keeps its
   * first `prefix` and last `suffix` runes around exactly four masks, however
   * many runes were dropped.
   */
  function Hide(s: string, prefix: nat, suffix: nat, mask: char): (r: string)
    ensures |s| <= prefix + suffix ==> |r| == |s| && AllMask(r, mask)
    ensures |s| > prefix + suffix ==>
      && |r| == prefix + MiddleMasks + suffix
      && r[..prefix] == s[..prefix]
      && AllMask(r[prefix..prefix + MiddleMasks], mask)
      && r[prefix + MiddleMasks..] == s[|s| - suffix..]
  {
    if |s| <= prefix + suffix then
      Repeat(mask, |s|)
    else
      s[..prefix] + Repeat(mask, MiddleMasks) + s[|s| - suffix..]
  }

  /**
   * `Hide` with Go's signed counts. `None` stands for the run-time panic of
   * the slice expressions `runes[:prefix]` (negative `prefix`) and
   * `runes[length-suffix:]` (negative `suffix`), which are only reached when
   * the string is longer than `prefix + suffix`.
   */
  function HideChecked(s: string, prefix: int, suffix: int, mask: char): (r: Option<string>)
    ensures r.None? <==> |s| > prefix + suffix && (prefix < 0 || suffix < 0)
    ensures |s| <= prefix + suffix ==> r.Some? && |r.value| == |s| && AllMask(r.value, mask)
    ensures prefix >= 0 && suffix >= 0 ==> r == Some(Hide(s, prefix, suffix, mask))
  {
    if |s| <= prefix + suffix then
      Some(Repeat(mask, |s|))
    else if prefix < 0 || suffix < 0 then
      None
    else
      Some(s[..prefix] + Repeat(mask, MiddleMasks) + s[|s| - suffix..])
  }

  /** The contract of `Hide` determines its result: any string meeting it is `Hide`'s. */
  lemma HideUnique(s: string, prefix: nat, suffix: nat, mask: char, r: string)
    requires |s| <= prefix + suffix ==> |r| == |s| && AllMask(r, mask)
    requires |s| > prefix + suffix ==>
      && |r| == prefix + MiddleMasks + suffix
      && r[..prefix] == s[..prefix]
      && AllMask(r[prefix..prefix + MiddleMasks], mask)
      && r[prefix + MiddleMasks..] == s[|s| - suffix..]
    ensures r == Hide(s, prefix, suffix, mask)
  {
    var h := Hide(s, prefix, suffix, mask);
    if |s| > prefix + suffix {
      assert r == r[..prefix] + r[prefix..prefix + MiddleMasks] + r[prefix + MiddleMasks..];
      assert h == h[..prefix] + h[prefix..prefix + MiddleMasks] + h[prefix + MiddleMasks..];
      assert r[prefix..prefix + MiddleMasks] == h[prefix..prefix + MiddleMasks];
    }
  }

  /** Masking an already masked string changes nothing. */
  lemma HideIdempotent(s: string, prefix: nat, suffix: nat, mask: char)
    ensures Hide(Hide(s, prefix, suffix, mask), prefix, suffix, mask) == Hide(s, prefix, suffix, mask)
  {
  }

  /**
   * The dropped runes never reach the result: in the long branch it depends
   * only on the kept ends (not even on the length), in the short branch only
   * on the length.
   */
  lemma HideRevealsOnlyEnds(s: string, t: string, prefix: nat, suffix: nat, mask: char)
    requires |s| > prefix + suffix && |t| > prefix + suffix
    requires s[..prefix] == t[..prefix] && s[|s| - suffix..] == t[|t| - suffix..]
    ensures Hide(s, prefix, suffix, mask) == Hide(t, prefix, suffix, mask)
  {
  }

  lemma HideShortDependsOnLength(s: string, t: string, prefix: nat, suffix: nat, mask: char)
    requires |s| == |t| <= prefix + suffix
    ensures Hide(s, prefix, suffix, mask) == Hide(t, prefix, suffix, mask)
  {
  }

  /** `HidePhone`: keeps the first 3 and last 4 runes. */
  function HidePhone(phone: string): (r: string)
    ensures |phone| <= 7 ==> |r| == |phone| && AllMask(r, '*')
    ensures |phone| > 7 ==>
      |r| == 11 && r[..3] == phone[..3] && r[3..7] == "****" && r[7..] == phone[|phone| - 4..]
  {
    Hide(phone, 3, 4, '*')
  }

  /** `HideIDCard`: keeps the first 6 and last 4 runes. */
  function HideIDCard(id: string): (r: string)
    ensures |id| <= 10 ==> |r| == |id| && AllMask(r, '*')
    ensures |id| > 10 ==>
      |r| == 14 && r[..6] == id[..6] && r[6..10] == "****" && r[10..] == id[|id| - 4..]
  {
    Hide(id, 6, 4, '*')
  }

  /** `HideBankCard`: keeps the first 4 and last 4 runes. */
  function HideBankCard(card: string): (r: string)
    ensures |card| <= 8 ==> |r| == |card| && AllMask(r, '*')
    ensures |card| > 8 ==>
      |r| == 12 && r[..4] == card[..4] && r[4..8] == "****" && r[8..] == card[|card| - 4..]
  {
    Hide(card, 4, 4, '*')
  }

  /** The number of bytes of the UTF-8 encoding of one code point. */
  function Utf8Width(c: char): (n: nat)
    ensures 1 <= n <= 4
    ensures n == 1 <==> (c as int) < 0x80
  {
    if (c as int) < 0x80 then 1
    else if (c as int) < 0x800 then 2
    else if (c as int) < 0x10000 then 3
    else 4
  }

  /** Every rune of `s` is a 7-bit ASCII character. */
  predicate IsAscii(s: string)
  {
    forall i :: 0 <= i < |s| ==> (s[i] as int) < 0x80
  }

  /** `len(s)` in Go: the length in bytes of the UTF-8 encoding of `s`. */
  function ByteLength(s: string): (n: nat)
    ensures n >= |s|
    ensures n == |s| <==> IsAscii(s)
  {
    if s == [] then 0
    else
      var n := Utf8Width(s[0]) + ByteLength(s[1..]);
      assert IsAscii(s) <==> (s[0] as int) < 0x80 && IsAscii(s[1..]) by {
        if (s[0] as int) < 0x80 && IsAscii(s[1..]) {
          forall i | 0 <= i < |s| ensures (s[i] as int) < 0x80 {
            if i > 0 { assert s[i] == s[1..][i - 1]; }
          }
        }
      }
      n
  }

  /** The rune index of the first `c` in `s`, or -1 when there is none. */
  function IndexOf(s: string, c: char): (i: int)
    ensures -1 <= i < |s|
    ensures i == -1 <==> c !in s
    ensures i >= 0 ==> s[i] == c && c !in s[..i]
  {
    if s == [] then -1
    else if s[0] == c then 0
    else
      var j := IndexOf(s[1..], c);
      assert s[1..][..j + 1] == s[..j + 2][1..] by { if j >= 0 { assert s[1..][..j] == s[1..j + 1]; } }
      assert j >= 0 ==> s[..j + 1] == [s[0]] + s[1..][..j];
      if j < 0 then -1 else j + 1
  }

  /**
   * `HideEmail`. Go's `strings.Index` gives the BYTE offset `at` of the first
   * `'@'`; the UTF-8 encoding of a multi-byte rune holds no byte below 0x80,
   * so that byte starts the first `'@'` rune, at rune index `i`, and
   * `email[:at]` and `email[at:]` are the runes before and from index `i`.
   * The test `at <= 2` is on bytes, the masking on runes.
   */
  function HideEmail(email: string): (r: string)
    ensures '@' !in email ==> r == email
    ensures '@' in email ==>
      var i := IndexOf(email, '@');
      var local := email[..i];
      var kept := |r| - (|email| - i);
      && 0 <= kept <= |r|
      && r[kept..] == email[i..]
      && (ByteLength(local) <= 2 ==> r == email)
      && (i > 2 ==> r[..kept] == local[..2] + "****")
      && (i <= 2 < ByteLength(local) ==> |r[..kept]| == i && AllMask(r[..kept], '*'))
  {
    var i := IndexOf(email, '@');
    var at := if i < 0 then -1 else ByteLength(email[..i]);
    if at <= 2 then
      email
    else
      var h := Hide(email[..i], 2, 0, '*');
      var r := h + email[i..];
      assert r[|h|..] == email[i..];
      assert r[..|h|] == h;
      r
  }

  /** On an ASCII local part the byte offset is the rune index: two or fewer
   *  characters stay as they are, longer ones become their first two
   *  characters followed by four masks. */
  lemma HideEmailAscii(email: string)
    requires '@' in email && IsAscii(email[..IndexOf(email, '@')])
    ensures var i := IndexOf(email, '@');
      && (i <= 2 ==> HideEmail(email) == email)
      && (i > 2 ==> HideEmail(email) == email[..2] + "****" + email[i..])
  {
    var i := IndexOf(email, '@');
    var local := email[..i];
    var r := HideEmail(email);
    assert ByteLength(local) == i;
    if i > 2 {
      var kept := |r| - (|email| - i);
      assert r[..kept] == local[..2] + "****";
      assert r[kept..] == email[i..];
      assert local[..2] == email[..2];
      assert r == r[..kept] + r[kept..];
    }
  }

  /** Masking an already masked address changes nothing. */
  lemma HideEmailIdempotent(email: string)
    ensures HideEmail(HideEmail(email)) == HideEmail(email)
  {
  }

  lemma HideExamples()
    ensures HidePhone("13812345678") == "138****5678"
    ensures HidePhone("1234567") == "*******"
    ensures HideIDCard("110101199003074512") == "110101****4512"
    ensures HideBankCard("6222021234567890") == "6222****7890"
  {
  }

  lemma HideEmailLongExample()
    ensures HideEmail("bob@x.io") == "bo****@x.io"
  {
    var e := "bob@x.io";
    assert IndexOf(e[2..], '@') == 1;
    assert IndexOf(e, '@') == 3;
    assert IsAscii(e[..3]);
    HideEmailAscii(e);
    assert e[..2] == "bo" && e[3..] == "@x.io";
  }

  lemma HideEmailShortExample()
    ensures HideEmail("ab@x.io") == "ab@x.io"
  {
  }

  /** Two non-ASCII runes take four bytes, so this local part is masked
   *  completely, while an ASCII one of two runes is left as it is. */
  lemma HideEmailMultiByteExample()
    ensures HideEmail("\U{e9}\U{e9}@x.io") == "**@x.io"
  {
    var e := "\U{e9}\U{e9}@x.io";
    assert IndexOf(e, '@') == 2;
    assert ByteLength(e[..2]) == 4;
  }
}
