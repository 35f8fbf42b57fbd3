/**
 * `_.UUID()`: the template "xxxxxxxx-xxxx-4xxx-yxxx-xxxxxxxxxxxx" with each
 * placeholder replaced by a random hexadecimal digit; at 'y' the digit is
 * forced into 8..b (`r & 0x3 | 0x8`). The random source is a parameter: the
 * digit in 0..15 (`Math.random() * 16 | 0`) drawn for each template position.
 */
module Uuid {
  type Nibble = n: nat | n < 16

  /** The random digit drawn for each template position (only placeholders use theirs). */
  type UuidDigits = s: seq<Nibble> | |s| == 36 witness seq(36, _ => 0)

  function Xs(n: nat): string {
    seq(n, _ => 'x')
  }

  const Template: string := Xs(8) + "-" + Xs(4) + "-4" + Xs(3) + "-y" + Xs(3) + "-" + Xs(12)

  lemma TemplateText()
    ensures Template == "xxxxxxxx-xxxx-4xxx-yxxx-xxxxxxxxxxxx"
  {
  }

  /** `v.toString(16)` for a single digit. */
  function HexDigit(n: Nibble): char {
    "0123456789abcdef"[n]
  }

  predicate IsLowerHex(c: char) {
    '0' <= c <= '9' || 'a' <= c <= 'f'
  }

  /** The replacement for one template character: `r` at 'x', `r & 0x3 | 0x8` at 'y'. */
  function FillChar(c: char, r: Nibble): char {
    if c == 'x' then HexDigit(r) else if c == 'y' then HexDigit(r % 4 + 8) else c
  }

  /** `t.replace(/[xy]/g, ...)`. */
  function Fill(t: string, rand: seq<Nibble>): string
    requires |rand| == |t|
  {
    seq(|t|, i requires 0 <= i < |t| => FillChar(t[i], rand[i]))
  }

  /** The shape of a version-4 UUID as the template lays it out. */
  predicate IsUuidV4Shape(u: string) {
    && |u| == 36
    && u[8] == '-' && u[13] == '-' && u[18] == '-' && u[23] == '-'
    && u[14] == '4'
    && u[19] in "89ab"
    && forall i :: 0 <= i < 36 && i != 8 && i != 13 && i != 18 && i != 23 ==> IsLowerHex(u[i])
  }

  /** A freshly generated `#uuid`. */
  function GenerateUuid(rand: UuidDigits): (u: string)
    ensures |u| == 36
  {
    Fill(Template, rand)
  }

  /** Every generated `#uuid` has the version-4 shape, whatever the random digits. */
  lemma GenerateUuidShape(rand: UuidDigits)
    ensures IsUuidV4Shape(GenerateUuid(rand))
  {
    assert forall i :: 0 <= i < 36 && i != 8 && i != 13 && i != 14 && i != 18 && i != 19 && i != 23 ==>
      Template[i] == 'x';
  }
}
