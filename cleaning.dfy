/** The clean-up of the chat message before the city lookup: Python's str.strip(chars). */
module Cleaning {

  /** The characters stripped from both ends of the message text. */
  const CleanChars: set<char> := {
    ' ', '.', ',', '!', '&', '?', '@', '$', '#', '^', '*', '(', ')', '_', '-', '=', '+',
    '"', '\'', '\U{2116}', '%', ';', ':'
  }

  /** Length of the longest prefix of s made only of characters in cs. */
  function LeadingRun(s: string, cs: set<char>): (n: nat)
    ensures n <= |s|
    ensures forall i :: 0 <= i < n ==> s[i] in cs
    ensures n < |s| ==> s[n] !in cs
  {
    if |s| == 0 || s[0] !in cs then 0 else 1 + LeadingRun(s[1..], cs)
  }

  /** Length of the longest suffix of s made only of characters in cs. */
  function TrailingRun(s: string, cs: set<char>): (n: nat)
    ensures n <= |s|
    ensures forall i :: |s| - n <= i < |s| ==> s[i] in cs
    ensures n < |s| ==> s[|s| - 1 - n] !in cs
  {
    if |s| == 0 || s[|s| - 1] !in cs then 0 else 1 + TrailingRun(s[..|s| - 1], cs)
  }

  /** s.strip(cs): drop the leading run, then the trailing run of what is left. The result
      is the slice of s between two maximal runs of characters from cs. */
  function Strip(s: string, cs: set<char>): (r: string)
    ensures exists i, j ::
              && 0 <= i <= j <= |s| && r == s[i..j]
              && (forall k :: 0 <= k < i ==> s[k] in cs)
              && (forall k :: j <= k < |s| ==> s[k] in cs)
    ensures r != [] ==> r[0] !in cs && r[|r| - 1] !in cs
  {
    var i := LeadingRun(s, cs);
    var j := |s| - TrailingRun(s[i..], cs);
    assert s[i..][..j - i] == s[i..j];
    s[i..j]
  }

  /** Stripping twice strips nothing more. */
  lemma StripIdempotent(s: string, cs: set<char>)
    ensures Strip(Strip(s, cs), cs) == Strip(s, cs)
  {
  }

  /** message.text.strip(...) of the message handler. */
  function CleanCity(text: string): (city: string)
    ensures |city| <= |text|
    ensures city != [] ==> city[0] !in CleanChars && city[|city| - 1] !in CleanChars
    ensures (forall c :: c in text ==> c in CleanChars) <==> city == []
  {
    Strip(text, CleanChars)
  }
}
