/**
 * The two string operations the ledger relies on: JavaScript's
 * `String.prototype.trim` (to reject a blank event name) and
 * `String.prototype.includes` (to pick the reminders a deletion removes).
 */
module Text {

  /**
   * The characters `trim` strips: ECMAScript's WhiteSpace (tab, vertical tab,
   * form feed, space, no-break space, byte-order mark and the other Unicode
   * space separators) and LineTerminator (line feed, carriage return, line
   * and paragraph separators).
   */
  predicate IsSpace(c: char) {
    var n := c as int;
    || n == 0x09 || n == 0x0A || n == 0x0B || n == 0x0C || n == 0x0D
    || n == 0x20 || n == 0xA0 || n == 0x1680
    || (0x2000 <= n <= 0x200A)
    || n == 0x2028 || n == 0x2029 || n == 0x202F || n == 0x205F
    || n == 0x3000 || n == 0xFEFF
  }

  /** The number of white-space characters `s` starts with. */
  function LeadingSpaces(s: string): (n: nat)
    ensures n <= |s|
    ensures forall i :: 0 <= i < n ==> IsSpace(s[i])
    ensures n < |s| ==> !IsSpace(s[n])
  {
    if |s| == 0 || !IsSpace(s[0]) then 0
    else 1 + LeadingSpaces(s[1..])
  }

  /** The number of white-space characters `s` ends with. */
  function TrailingSpaces(s: string): (n: nat)
    ensures n <= |s|
    ensures forall i :: |s| - n <= i < |s| ==> IsSpace(s[i])
    ensures n < |s| ==> !IsSpace(s[|s| - n - 1])
  {
    if |s| == 0 || !IsSpace(s[|s| - 1]) then 0
    else 1 + TrailingSpaces(s[..|s| - 1])
  }

  /**
   * `s.trim()`: `s` with its leading and trailing white space removed. The
   * result is the slice of `s` starting at its first non-space character;
   * everything cut away is white space, and a non-empty result neither
   * starts nor ends with white space.
   */
  function Trim(s: string): (r: string)
    ensures |r| <= |s|
    ensures LeadingSpaces(s) + |r| <= |s|
    ensures forall i :: 0 <= i < |r| ==> r[i] == s[LeadingSpaces(s) + i]
    ensures forall i :: 0 <= i < LeadingSpaces(s) ==> IsSpace(s[i])
    ensures forall i :: LeadingSpaces(s) + |r| <= i < |s| ==> IsSpace(s[i])
    ensures |r| > 0 ==> !IsSpace(r[0]) && !IsSpace(r[|r| - 1])
  {
    var t := s[LeadingSpaces(s)..];
    t[..|t| - TrailingSpaces(t)]
  }

  /** `!s.trim()`: the string is empty once trimmed. */
  predicate IsBlank(s: string) {
    Trim(s) == []
  }

  /** A name is blank exactly when every character in it is white space. */
  lemma BlankIffAllSpace(s: string)
    ensures IsBlank(s) <==> forall i :: 0 <= i < |s| ==> IsSpace(s[i])
  {
  }

  /** `s` starts with `p`. */
  predicate StartsWith(s: string, p: string) {
    |p| <= |s| && s[..|p|] == p
  }

  /** `h.includes(n)`: `n` occurs somewhere in `h`, the empty string everywhere. */
  predicate Contains(h: string, n: string)
    decreases |h|
  {
    StartsWith(h, n) || (|h| > 0 && Contains(h[1..], n))
  }

  /** `n` occurs in `h` at position `k`. */
  predicate OccursAt(h: string, n: string, k: int) {
    0 <= k && k + |n| <= |h| && h[k..k + |n|] == n
  }

  /** `Contains` agrees with the positional definition of a substring. */
  lemma {:induction false} ContainsIffOccursAt(h: string, n: string)
    ensures Contains(h, n) <==> exists k :: OccursAt(h, n, k)
    decreases |h|
  {
    if StartsWith(h, n) {
      assert OccursAt(h, n, 0);
    } else if |h| > 0 {
      ContainsIffOccursAt(h[1..], n);
      if exists k :: OccursAt(h, n, k) {
        var k :| OccursAt(h, n, k);
        if k != 0 {
          assert h[1..][k - 1..k - 1 + |n|] == n;
          assert OccursAt(h[1..], n, k - 1);
        }
      }
      if Contains(h[1..], n) {
        var k :| OccursAt(h[1..], n, k);
        assert h[k + 1..k + 1 + |n|] == n;
        assert OccursAt(h, n, k + 1);
      }
    }
  }

  /** Every string contains the empty string and itself. */
  lemma ContainsEmptyAndSelf(h: string)
    ensures Contains(h, [])
    ensures Contains(h, h)
  {
    assert StartsWith(h, []);
    assert StartsWith(h, h);
  }
}
