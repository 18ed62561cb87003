/** The JavaScript string and number-input operations the client code relies
    on: `trim`, ASCII `toLowerCase`, `includes`, `split(' ')`, and the
    `parseFloat(x) || 0` idiom of the quantity inputs. */
module Text {
  import opened Wrappers

  /** The characters `String.prototype.trim` removes (the ASCII ones, the
      no-break space, the byte-order mark and the line/paragraph separators). */
  predicate IsWhitespace(c: char) {
    c == ' ' || c == '\t' || c == '\n' || c == '\r' || c == '\U{B}' || c == '\U{C}' ||
    c == '\U{A0}' || c == '\U{FEFF}' || c == '\U{2028}' || c == '\U{2029}'
  }

  /** The number of leading whitespace characters of `s`. */
  function LeadingSpace(s: string): (n: nat)
    ensures n <= |s|
    ensures forall k :: 0 <= k < n ==> IsWhitespace(s[k])
    ensures n < |s| ==> !IsWhitespace(s[n])
  {
    if s != [] && IsWhitespace(s[0]) then 1 + LeadingSpace(s[1..]) else 0
  }

  /** The number of trailing whitespace characters of `s`. */
  function TrailingSpace(s: string): (n: nat)
    ensures n <= |s|
    ensures forall k :: |s| - n <= k < |s| ==> IsWhitespace(s[k])
    ensures n < |s| ==> !IsWhitespace(s[|s| - n - 1])
  {
    if s != [] && IsWhitespace(s[|s| - 1]) then 1 + TrailingSpace(s[..|s| - 1]) else 0
  }

  /** `s.trim()`: `s` without its leading and trailing whitespace. The result
      is empty exactly when `s` is all whitespace, and otherwise starts and
      ends with a non-whitespace character; what precedes it is exactly the
      leading whitespace and everything after it is whitespace. */
  function Trim(s: string): (r: string)
    ensures |r| <= |s|
    ensures r == [] <==> forall k :: 0 <= k < |s| ==> IsWhitespace(s[k])
    ensures r != [] ==> !IsWhitespace(r[0]) && !IsWhitespace(r[|r| - 1])
    ensures LeadingSpace(s) + |r| <= |s|
    ensures r != [] ==> r == s[LeadingSpace(s)..LeadingSpace(s) + |r|]
    ensures forall k :: LeadingSpace(s) + |r| <= k < |s| ==> IsWhitespace(s[k])
  {
    var n := LeadingSpace(s);
    var t := s[n..];
    var r := t[..|t| - TrailingSpace(t)];
    assert forall k :: n + |r| <= k < |s| ==> s[k] == t[k - n];
    r
  }

  /** ASCII `toLowerCase` of one character. */
  function LowerChar(c: char): (r: char)
    ensures 'A' <= c <= 'Z' ==> 'a' <= r <= 'z'
    ensures !('A' <= c <= 'Z') ==> r == c
  {
    if 'A' <= c <= 'Z' then (c as int + 32) as char else c
  }

  /** ASCII `toLowerCase`: same length, each character lower-cased. */
  function Lower(s: string): (r: string)
    ensures |r| == |s|
    ensures forall i :: 0 <= i < |s| ==> r[i] == LowerChar(s[i])
  {
    seq(|s|, i requires 0 <= i < |s| => LowerChar(s[i]))
  }

  /** `needle` occurs in `hay` starting at position `i`. */
  predicate OccursAt(hay: string, needle: string, i: nat) {
    i + |needle| <= |hay| && hay[i..i + |needle|] == needle
  }

  /** `hay.includes(needle)`: `needle` occurs as a contiguous piece of `hay`. */
  predicate Contains(hay: string, needle: string) {
    exists i: nat | i <= |hay| :: OccursAt(hay, needle, i)
  }

  /** Every string includes the empty string. */
  lemma ContainsEmpty(hay: string)
    ensures Contains(hay, "")
  {
    assert OccursAt(hay, "", 0);
  }

  /** `s.split(' ')`: the pieces between single spaces, in order, including
      the empty pieces that runs of spaces and edge spaces produce. Joining
      them back with spaces gives `s` (see JoinSplit). */
  function Split(s: string): (r: seq<string>)
    ensures |r| >= 1
    ensures forall w :: w in r ==> ' ' !in w
  {
    if s == [] then [""]
    else if s[0] == ' ' then [""] + Split(s[1..])
    else
      var rest := Split(s[1..]);
      [[s[0]] + rest[0]] + rest[1..]
  }

  /** The pieces joined back with single spaces. */
  function Join(ws: seq<string>): string
    requires |ws| >= 1
  {
    if |ws| == 1 then ws[0] else ws[0] + " " + Join(ws[1..])
  }

  /** Splitting on spaces loses nothing: joining the pieces restores `s`. */
  lemma {:induction false} JoinSplit(s: string)
    ensures Join(Split(s)) == s
  {
    if s == [] {
    } else if s[0] == ' ' {
      JoinSplit(s[1..]);
      assert Split(s)[1..] == Split(s[1..]);
      assert s == [' '] + s[1..];
    } else {
      var rest := Split(s[1..]);
      JoinSplit(s[1..]);
      var r := Split(s);
      assert r[0] == [s[0]] + rest[0];
      assert r[1..] == rest[1..];
      if |rest| == 1 {
        assert s == [s[0]] + s[1..];
      } else {
        assert Join(rest) == rest[0] + " " + Join(rest[1..]);
        assert s == [s[0]] + s[1..];
      }
    }
  }

  /** `parseFloat(input) || 0` in a quantity field: an unparsable input
      (`None`) and zero both give 0, any other number is kept. */
  function QuantityInput(parsed: Option<real>): (q: real)
    ensures parsed.Some? ==> q == parsed.value
    ensures parsed.None? ==> q == 0.0
  {
    if parsed.Some? && parsed.value != 0.0 then parsed.value else 0.0
  }
}
