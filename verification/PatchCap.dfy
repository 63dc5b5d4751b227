/**
 Capping a patch at a number of UTF-8 bytes (capPatch in packages/contracts/src/git.ts). Strings are sequences of
 UTF-16 code units, so a slice may split a surrogate pair; the encoder writes a lone surrogate as U+FFFD, three
 bytes (section 3 of RFC 3629).
 */
module PatchCap {

  type unit = u: int | 0 <= u < 0x1_0000

  const NEWLINE: unit := 10
  const STEP: nat := 1024

  predicate IsPair(text: seq<unit>) {
    |text| >= 2 && 0xD800 <= text[0] < 0xDC00 && 0xDC00 <= text[1] < 0xE000
  }

  /** UTF-8 bytes of one code unit that is not the half of a pair. */
  function UnitBytes(u: unit): nat {
    if u < 0x80 then 1 else if u < 0x800 then 2 else 3
  }

  /** `new TextEncoder().encode(text).length` */
  function Utf8Bytes(text: seq<unit>): nat {
    if text == [] then 0
    else if IsPair(text) then 4 + Utf8Bytes(text[2..])
    else UnitBytes(text[0]) + Utf8Bytes(text[1..])
  }

  /** Cutting a string short never makes it longer in bytes, even when the cut splits a pair. */
  lemma {:induction false} PrefixBytes(text: seq<unit>, n: nat)
    requires n <= |text|
    ensures Utf8Bytes(text[..n]) <= Utf8Bytes(text)
    decreases |text|
  {
    if n > 0 {
      if IsPair(text) {
        if n == 1 {
          assert text[..1][1..] == [];
        } else {
          assert text[..n][2..] == text[2..][..n - 2];
          PrefixBytes(text[2..], n - 2);
        }
      } else {
        assert text[..n][1..] == text[1..][..n - 1];
        PrefixBytes(text[1..], n - 1);
      }
    }
  }

  /** Every code unit takes between one and three bytes. */
  lemma {:induction false} BytesBetween(text: seq<unit>)
    ensures |text| <= Utf8Bytes(text) <= 3 * |text|
    decreases |text|
  {
    if text != [] {
      BytesBetween(if IsPair(text) then text[2..] else text[1..]);
    }
  }

  /** Plain ASCII is one byte a unit. */
  lemma {:induction false} AsciiBytes(text: seq<unit>)
    requires forall k | 0 <= k < |text| :: text[k] < 0x80
    ensures Utf8Bytes(text) == |text|
  {
    if text != [] {
      AsciiBytes(text[1..]);
    }
  }

  /** `text.lastIndexOf("\n")` */
  function LastNewline(text: seq<unit>): (r: int)
    ensures -1 <= r < |text|
    ensures r >= 0 ==> text[r] == NEWLINE
    ensures forall k | r < k < |text| :: text[k] != NEWLINE
  {
    if text == [] then -1
    else if text[|text| - 1] == NEWLINE then |text| - 1
    else LastNewline(text[..|text| - 1])
  }

  /** How many units are left of `n` after taking STEP off, as `slice(0, -1024)` does. */
  function Shorter(n: nat): nat {
    if n < STEP then 0 else n - STEP
  }

  /** The candidate one step longer, if any, did not fit. */
  predicate LongerFailed(patch: seq<unit>, max: nat, n: nat) {
    n < |patch| && n < max ==>
      exists k :: n <= k <= |patch| && k <= max && Shorter(k) == n && Utf8Bytes(patch[..k]) > max
  }

  /** `n` units is where the loop stops: they fit, and the candidate before it did not. */
  predicate StopsAt(patch: seq<unit>, max: nat, n: nat) {
    && n <= |patch| && n <= max
    && Utf8Bytes(patch[..n]) <= max
    && LongerFailed(patch, max, n)
  }

  /** The result of capping: all of a patch that fits, otherwise what fits up to its last line break. */
  ghost predicate Capped(patch: seq<unit>, max: nat, r: seq<unit>, truncated: bool) {
    && (truncated <==> Utf8Bytes(patch) > max)
    && (!truncated ==> r == patch)
    && (truncated ==> exists n: nat ::
          && StopsAt(patch, max, n)
          && var newline := LastNewline(patch[..n]);
             r == if newline > 0 then patch[..newline] else patch[..n])
  }

  method CapPatch(patch: seq<unit>, max: nat) returns (r: seq<unit>, truncated: bool)
    ensures Capped(patch, max, r, truncated)
  {
    if Utf8Bytes(patch) <= max {
      return patch, false;
    }
    BytesBetween(patch);
    var cut := if max < |patch| then patch[..max] else patch;
    ghost var n: nat := |cut|;
    while Utf8Bytes(cut) > max
      invariant n <= |patch| && n <= max && cut == patch[..n]
      invariant LongerFailed(patch, max, n)
      decreases n
    {
      assert n > 0 by { BytesBetween(cut); }
      ghost var next := Shorter(n);
      assert cut[..next] == patch[..next];
      cut := if |cut| < STEP then [] else cut[..|cut| - STEP];
      n := next;
    }
    assert StopsAt(patch, max, n);
    var newline := LastNewline(cut);
    if newline > 0 {
      assert cut[..newline] == patch[..newline];
      return cut[..newline], true;
    }
    return cut, true;
  }

  /** A capped patch is a prefix that fits the limit; a truncated one ends in front of a line break, unless there
      was none to cut at. */
  lemma CapFits(patch: seq<unit>, max: nat, r: seq<unit>, truncated: bool)
    requires Capped(patch, max, r, truncated)
    ensures r <= patch && Utf8Bytes(r) <= max
    ensures truncated <==> r != patch
    ensures truncated ==> |r| < |patch| && (patch[|r|] == NEWLINE || forall k | 0 < k < |r| :: r[k] != NEWLINE)
  {
    if truncated {
      var n: nat :| StopsAt(patch, max, n) && var newline := LastNewline(patch[..n]);
        r == if newline > 0 then patch[..newline] else patch[..n];
      var newline := LastNewline(patch[..n]);
      assert patch[..|patch|] == patch;
      if newline > 0 {
        assert patch[..n][..newline] == patch[..newline];
        assert patch[newline] == NEWLINE;
        PrefixBytes(patch[..n], newline);
      }
    }
  }

  /** Less than one step is given away: no prefix that is a whole step longer fits, and a patch of plain ASCII keeps
      every unit up to the last line break within the limit. */
  lemma CapIsTight(patch: seq<unit>, max: nat, n: nat)
    requires StopsAt(patch, max, n) && Utf8Bytes(patch) > max
    ensures forall k | n + STEP <= k <= |patch| :: Utf8Bytes(patch[..k]) > max
    ensures (forall k | 0 <= k < |patch| :: patch[k] < 0x80) ==> n == max
  {
    assert patch[..|patch|] == patch;
    forall k | n + STEP <= k <= |patch|
      ensures Utf8Bytes(patch[..k]) > max
    {
      if n < max {
        var m :| n <= m <= |patch| && m <= max && Shorter(m) == n && Utf8Bytes(patch[..m]) > max;
        assert patch[..k][..m] == patch[..m];
        PrefixBytes(patch[..k], m);
      } else {
        BytesBetween(patch[..k]);
      }
    }
    if forall k | 0 <= k < |patch| :: patch[k] < 0x80 {
      AsciiBytes(patch);
      if n < max {
        var m :| n <= m <= |patch| && m <= max && Shorter(m) == n && Utf8Bytes(patch[..m]) > max;
        AsciiBytes(patch[..m]);
      }
    }
  }

  // ---- the encoder whose bytes are counted ----

  type byte = b: int | 0 <= b < 256

  /** The scalar value of a surrogate pair (section 3.8 of the Unicode Standard). */
  function PairValue(high: unit, low: unit): int
    requires 0xD800 <= high < 0xDC00 && 0xDC00 <= low < 0xE000
  {
    0x1_0000 + (high - 0xD800) * 0x400 + (low - 0xDC00)
  }

  /** The bytes of one scalar value. */
  function ScalarBytes(c: int): seq<byte>
    requires 0 <= c < 0x11_0000
  {
    if c < 0x80 then [c]
    else if c < 0x800 then [0xC0 + c / 64, 0x80 + c % 64]
    else if c < 0x1_0000 then [0xE0 + c / 4096, 0x80 + c / 64 % 64, 0x80 + c % 64]
    else [0xF0 + c / 262144, 0x80 + c / 4096 % 64, 0x80 + c / 64 % 64, 0x80 + c % 64]
  }

  /** UTF-8 as section 3 of RFC 3629 defines it; half a pair becomes the replacement character. */
  function Encoded(text: seq<unit>): seq<byte> {
    if text == [] then []
    else if |text| >= 2 && 0xD800 <= text[0] < 0xDC00 && 0xDC00 <= text[1] < 0xE000
    then ScalarBytes(PairValue(text[0], text[1])) + Encoded(text[2..])
    else if 0xD800 <= text[0] < 0xE000 then [0xEF, 0xBF, 0xBD] + Encoded(text[1..])
    else ScalarBytes(text[0]) + Encoded(text[1..])
  }

  /** The limit counts the bytes of the encoded text. */
  lemma {:induction false} BytesAreEncoded(text: seq<unit>)
    ensures Utf8Bytes(text) == |Encoded(text)|
    decreases |text|
  {
    if text != [] {
      BytesAreEncoded(if IsPair(text) then text[2..] else text[1..]);
    }
  }
}
