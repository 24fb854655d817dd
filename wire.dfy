/** Values shared by both roles of the start/stop handshake: the control tokens
    carried on the serial link, an Option type, and the two string operations
    the programs apply to what they receive (Python's `str.strip()` and the
    substring test `"ACK" in response`). */
module Wire {

  datatype Option<T> = None | Some(value: T)

  /** The literal control tokens of the handshake. */
  const StartSync: string := "START_SYNC"
  const StopSync: string := "STOP_SYNC"
  const Ack: string := "ACK"
  const AckAck: string := "ACK_ACK"

  /** The ASCII characters for which Python's `str.isspace()` holds:
      tab, line feed, vertical tab, form feed, carriage return, the four
      information separators 0x1C-0x1F, and space. */
  predicate IsSpace(c: char) {
    var n := c as int;
    n == 32 || 9 <= n <= 13 || 28 <= n <= 31
  }

  predicate AllSpace(s: string) {
    forall k :: 0 <= k < |s| ==> IsSpace(s[k])
  }

  /** Number of leading whitespace characters of `s`. */
  function LeadingSpaces(s: string): (n: nat)
    ensures n <= |s|
    ensures AllSpace(s[..n])
    ensures n == |s| || !IsSpace(s[n])
  {
    if s == [] || !IsSpace(s[0]) then 0
    else
      var m := LeadingSpaces(s[1..]);
      assert s[1..][..m] == s[1..1 + m];
      1 + m
  }

  /** Length of `s` without its trailing whitespace. */
  function TrailingStart(s: string): (n: nat)
    ensures n <= |s|
    ensures AllSpace(s[n..])
    ensures n == 0 || !IsSpace(s[n - 1])
  {
    if s == [] || !IsSpace(s[|s| - 1]) then |s|
    else
      var m := TrailingStart(s[..|s| - 1]);
      assert s[..|s| - 1][m..] == s[m..|s| - 1];
      m
  }

  /** `str.strip()`: `s` without its leading and trailing whitespace. The
      result is the slice of `s` that starts after the leading whitespace,
      everything cut off is whitespace, and it neither starts nor ends
      with whitespace. */
  function Strip(s: string): (r: string)
    ensures |r| <= |s|
    ensures LeadingSpaces(s) + |r| <= |s|
    ensures r == s[LeadingSpaces(s)..LeadingSpaces(s) + |r|]
    ensures AllSpace(s[..LeadingSpaces(s)]) && AllSpace(s[LeadingSpaces(s) + |r|..])
    ensures r == [] || (!IsSpace(r[0]) && !IsSpace(r[|r| - 1]))
  {
    var i := LeadingSpaces(s);
    var rest := s[i..];
    var j := TrailingStart(rest);
    assert rest[j..] == s[i + j..];
    assert j > 0 ==> rest[..j][0] == s[i];
    rest[..j]
  }

  lemma StripIdempotent(s: string)
    ensures Strip(Strip(s)) == Strip(s)
  {
    var r := Strip(s);
    if r != [] {
      assert LeadingSpaces(r) == 0;
      assert r[..0] == [];
    }
  }

  /** `pat` occurs in `s` at some position. */
  ghost predicate Occurs(s: string, pat: string) {
    exists i :: 0 <= i <= |s| && pat <= s[i..]
  }

  /** Python's `pat in s` on strings, searched from the left. */
  function Contains(s: string, pat: string): (b: bool)
    ensures pat <= s ==> b
    ensures b ==> |pat| <= |s|
    decreases |s|
  {
    if pat <= s then true
    else if s == [] then false
    else Contains(s[1..], pat)
  }

  lemma {:induction false} ContainsIffOccurs(s: string, pat: string)
    ensures Contains(s, pat) <==> Occurs(s, pat)
    decreases |s|
  {
    if pat <= s {
      assert s[0..] == s;
    } else if s == [] {
    } else {
      ContainsIffOccurs(s[1..], pat);
      if Occurs(s[1..], pat) {
        var i :| 0 <= i <= |s[1..]| && pat <= s[1..][i..];
        assert s[1..][i..] == s[i + 1..];
      }
      if Occurs(s, pat) {
        var i :| 0 <= i <= |s| && pat <= s[i..];
        assert s[i..] == s[1..][i - 1..];
      }
    }
  }
}
