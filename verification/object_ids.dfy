/**
 * Document identifiers. The store names games, tips and reports by 12-byte
 * identifiers whose textual form is 24 hexadecimal digits. The model works
 * with that textual form, kept in its canonical lower-case spelling.
 */
module ObjectIds {
  import opened Wrappers

  const IdLength := 24

  /** One of `0123456789abcdef`. */
  predicate IsLowerHexDigit(c: char) {
    ('0' <= c <= '9') || ('a' <= c <= 'f')
  }

  /** A hexadecimal digit of either case. */
  predicate IsHexDigit(c: char) {
    IsLowerHexDigit(c) || ('A' <= c <= 'F')
  }

  /** The canonical text of an identifier: exactly 24 lower-case hex digits. */
  predicate IsCanonical(s: string) {
    |s| == IdLength && forall i :: 0 <= i < |s| ==> IsLowerHexDigit(s[i])
  }

  /** What the identifier constructor accepts from a string: 24 hex digits of either case. */
  predicate IsHex24(s: string) {
    |s| == IdLength && forall i :: 0 <= i < |s| ==> IsHexDigit(s[i])
  }

  type Hex24 = s: string | IsCanonical(s) witness "000000000000000000000000"

  /** A document identifier, held as its canonical text. */
  datatype ObjectId = ObjectId(hex: Hex24)

  function LowerChar(c: char): (d: char)
    ensures IsHexDigit(c) ==> IsLowerHexDigit(d)
    ensures IsLowerHexDigit(c) ==> d == c
  {
    if 'A' <= c <= 'F' then (c as int - 'A' as int + 'a' as int) as char else c
  }

  function ToLower(s: string): (t: string)
    ensures |t| == |s|
    ensures forall i :: 0 <= i < |s| ==> t[i] == LowerChar(s[i])
  {
    seq(|s|, i requires 0 <= i < |s| => LowerChar(s[i]))
  }

  lemma ToLowerCanonical(s: string)
    requires IsCanonical(s)
    ensures ToLower(s) == s
  {
  }

  /**
   * `ObjectId(s)` for a string `s`: 24 hex digits of either case are accepted
   * and name the identifier whose canonical text is their lower-case spelling;
   * anything else is rejected.
   */
  function Parse(s: string): (r: Option<ObjectId>)
    ensures r.Some? <==> IsHex24(s)
    ensures r.Some? ==> r.value.hex == ToLower(s)
    ensures IsCanonical(s) ==> r == Some(ObjectId(s))
  {
    if IsHex24(s) then
      assert IsCanonical(s) ==> ToLower(s) == s by {
        if IsCanonical(s) { ToLowerCanonical(s); }
      }
      Some(ObjectId(ToLower(s)))
    else None
  }

  /** `str(oid)`: the canonical text, from which `Parse` recovers the same identifier. */
  function ToString(id: ObjectId): (s: string)
    ensures IsCanonical(s)
    ensures Parse(s) == Some(id)
  {
    id.hex
  }

  /** Distinct identifiers have distinct texts, so the text names the identifier. */
  lemma ToStringInjective(a: ObjectId, b: ObjectId)
    ensures ToString(a) == ToString(b) <==> a == b
  {
  }

  /** A canonical string survives parse-then-print unchanged. */
  lemma CanonicalRoundTrip(s: string)
    requires IsCanonical(s)
    ensures Parse(s).Some? && ToString(Parse(s).value) == s
  {
  }
}
