/** The avatar fallback of the profile menu (src/components/auth/nav-profile.tsx):
    the initials of the user's name. */
module Profile {
  import opened Wrappers
  import Seqs
  import Text

  /** The filter `Boolean` on strings: the non-empty ones. */
  predicate NonEmpty(w: string) {
    w != ""
  }

  /** `s.split(' ').filter(Boolean)`: the space-separated words of `s`. */
  function Words(s: string): (r: seq<string>)
    ensures forall w :: w in r ==> w != "" && ' ' !in w
  {
    Seqs.Filter(NonEmpty, Text.Split(s))
  }

  /** Splitting gives one piece more than there are spaces. */
  lemma {:induction false} SplitLength(s: string)
    ensures |Text.Split(s)| == 1 + multiset(s)[' ']
  {
    if s != [] {
      SplitLength(s[1..]);
      assert s == [s[0]] + s[1..];
    }
  }

  /** The last piece of a split is the suffix after the last space: the
      whole string when there is no space, and otherwise a suffix preceded
      by a space. */
  lemma {:induction false} SplitLast(s: string)
    ensures var pieces := Text.Split(s); var last := pieces[|pieces| - 1];
      |last| <= |s| && last == s[|s| - |last|..] &&
      (|pieces| == 1 ==> last == s) &&
      (|pieces| > 1 ==> |last| < |s| && s[|s| - |last| - 1] == ' ')
  {
    if s != [] {
      SplitLast(s[1..]);
      var rest := Text.Split(s[1..]);
      if s[0] == ' ' {
        assert Text.Split(s) == [""] + rest;
      } else {
        assert Text.Split(s) == [[s[0]] + rest[0]] + rest[1..];
        if |rest| == 1 {
          assert s == [s[0]] + s[1..];
        }
      }
    }
  }

  /** `j` is the position of the last space of `t`. */
  predicate IsLastSpace(t: string, j: int) {
    0 <= j < |t| && t[j] == ' ' && forall k :: j < k < |t| ==> t[k] != ' '
  }

  /** The first piece of a string starting with a non-space starts with
      that character. */
  lemma FirstPiece(t: string)
    requires t != "" && t[0] != ' '
    ensures Text.Split(t)[0] != "" && Text.Split(t)[0][0] == t[0]
  {
    var rest := Text.Split(t[1..]);
    assert Text.Split(t) == [[t[0]] + rest[0]] + rest[1..];
  }

  /** A string starting with a non-space has a first word, and that word
      starts with the string's first character. */
  lemma WordsFirst(t: string)
    requires t != "" && t[0] != ' '
    ensures |Words(t)| >= 1 && Words(t)[0][0] == t[0]
  {
    var pieces := Text.Split(t);
    FirstPiece(t);
    assert NonEmpty(pieces[0]);
    assert Words(t) == [pieces[0]] + Seqs.Filter(NonEmpty, pieces[1..]);
  }

  /** A non-empty string without spaces is its only word. */
  lemma WordsSingle(t: string)
    requires t != "" && ' ' !in t
    ensures Words(t) == [t]
  {
    SplitLength(t);
    SplitLast(t);
    assert multiset(t)[' '] == 0;
    assert Text.Split(t) == [t];
    Seqs.FilterSingleton(NonEmpty, t);
  }

  /** In a string with a space that ends with a non-space, the last piece
      of the split is non-empty and starts right after the last space. */
  lemma LastPiece(t: string)
    requires t != "" && t[|t| - 1] != ' ' && ' ' in t
    ensures var pieces := Text.Split(t); var last := pieces[|pieces| - 1];
      |pieces| >= 2 && last != "" && |last| < |t| && IsLastSpace(t, |t| - |last| - 1) &&
      last[0] == t[|t| - |last|]
  {
    var pieces := Text.Split(t);
    SplitLength(t);
    SplitLast(t);
    assert multiset(t)[' '] > 0;
    var last := pieces[|pieces| - 1];
    assert last != "";
    var j := |t| - |last| - 1;
    assert last in pieces;
    forall k | j < k < |t|
      ensures t[k] != ' '
    {
      assert t[k] == last[k - j - 1];
    }
  }

  /** A string that ends with a non-space but has a space has at least two
      words, the last one starting right after its last space. */
  lemma WordsLast(t: string)
    requires t != "" && t[0] != ' ' && t[|t| - 1] != ' ' && ' ' in t
    ensures |Words(t)| >= 2
    ensures exists j :: IsLastSpace(t, j) && j + 1 < |t| && Words(t)[|Words(t)| - 1][0] == t[j + 1]
  {
    var pieces := Text.Split(t);
    LastPiece(t);
    var last := pieces[|pieces| - 1];
    FirstPiece(t);
    Seqs.FilterEnds(NonEmpty, pieces);
    var words := Words(t);
    assert words[|words| - 1] == last;
    assert IsLastSpace(t, |t| - |last| - 1);
  }

  /** The words of a string that starts and ends with a non-space: the first
      word starts with the first character, there are two or more words
      exactly when there is a space, and then the last word starts right
      after the last space. */
  lemma WordsOfTrimmed(t: string)
    requires t != "" && t[0] != ' ' && t[|t| - 1] != ' '
    ensures |Words(t)| >= 1 && Words(t)[0][0] == t[0]
    ensures |Words(t)| >= 2 <==> ' ' in t
    ensures |Words(t)| >= 2 ==>
      exists j :: IsLastSpace(t, j) && j + 1 < |t| && Words(t)[|Words(t)| - 1][0] == t[j + 1]
  {
    WordsFirst(t);
    if ' ' in t {
      WordsLast(t);
    } else {
      WordsSingle(t);
    }
  }

  /** The trimmed name has no word exactly when it is empty; otherwise
      WordsOfTrimmed describes its words. */
  lemma TrimmedWords(name: string)
    ensures var t := Text.Trim(name);
      (Words(t) == [] <==> t == "") &&
      (t != "" ==> t[0] != ' ' && t[|t| - 1] != ' ')
  {
    var t := Text.Trim(name);
    assert Text.IsWhitespace(' ');
    if t == "" {
      assert Text.Split(t) == [""];
      Seqs.FilterSingleton(NonEmpty, "");
    } else {
      WordsOfTrimmed(t);
    }
  }

  /** `getInitials` as written: '?' for an empty name; otherwise the first
      letter of the first word of the trimmed name, followed, when there are
      several words, by the first letter of the last one. A name made only
      of whitespace leaves no word and the lookup of the first one throws. */
  function InitialsAsWritten(name: string): (r: Result<string, string>)
    ensures name == "" ==> r == Success("?")
    ensures r.Failure? <==> name != "" && Text.Trim(name) == ""
    ensures r.Success? ==> r.value == Initials(name)
  {
    if |name| == 0 then Success("?")
    else
      var t := Text.Trim(name);
      var parts := Words(t);
      TrimmedWords(name);
      if |parts| == 1 then Success([parts[0][0]])
      else if |parts| == 0 then Failure("TypeError: Cannot read properties of undefined (reading '0')")
      else Success([parts[0][0], parts[|parts| - 1][0]])
  }

  /** A name of a single space makes the written function throw; the
      corrected one gives '?'. */
  lemma BlankNameThrows()
    ensures InitialsAsWritten(" ").Failure?
    ensures Initials(" ") == "?"
  {
    assert Text.IsWhitespace(" "[0]);
  }

  /** `getInitials` with a blank (empty or whitespace-only) name giving '?':
      otherwise one or two letters, the first one the first character of
      the trimmed name, a second one exactly when the trimmed name has a
      space, and that second one the character right after its last space. */
  function Initials(name: string): (r: string)
    ensures Text.Trim(name) == "" ==> r == "?"
    ensures Text.Trim(name) != "" ==> 1 <= |r| <= 2 && r[0] == Text.Trim(name)[0]
    ensures Text.Trim(name) != "" ==> (|r| == 2 <==> ' ' in Text.Trim(name))
    ensures |r| == 2 ==> exists j ::
      IsLastSpace(Text.Trim(name), j) && j + 1 < |Text.Trim(name)| && r[1] == Text.Trim(name)[j + 1]
  {
    var t := Text.Trim(name);
    if t == "" then "?"
    else
      TrimmedWords(name);
      WordsOfTrimmed(t);
      var parts := Words(t);
      if |parts| == 1 then [parts[0][0]] else [parts[0][0], parts[|parts| - 1][0]]
  }
}
