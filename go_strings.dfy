/** Go's strings.Title on ASCII text: the first letter of every word is
    mapped to title case, a word starting at the beginning of the string or
    right after a separator character. */
module GoStrings {

  /** Go's isSeparator: ASCII letters, digits and '_' are not separators,
      every other ASCII character is. Characters beyond ASCII are taken as
      non-separators. */
  function IsSeparator(c: char): (r: bool)
    ensures ('0' <= c <= '9' || IsLower(c) || 'A' <= c <= 'Z' || c == '_') ==> !r
    ensures (c == ' ' || c == '-' || c == '.' || c == '/' || c == '\t') ==> r
    ensures r ==> c <= '\U{7F}'
  {
    c <= '\U{7F}' && !('0' <= c <= '9' || 'a' <= c <= 'z' || 'A' <= c <= 'Z' || c == '_')
  }

  predicate IsLower(c: char) {
    'a' <= c <= 'z'
  }

  /** unicode.ToTitle on ASCII: a lower-case letter becomes upper case. */
  function ToTitle(c: char): (r: char)
    ensures IsLower(c) ==> 'A' <= r <= 'Z' && r as int + 32 == c as int
    ensures !IsLower(c) ==> r == c
    ensures IsSeparator(r) == IsSeparator(c)
    ensures ToTitle(r) == r
  {
    if IsLower(c) then (c as int - 32) as char else c
  }

  /** Title-cases `s` as if `prev` came right before it: a character is
      title-cased exactly when the one before it is a separator. */
  function TitleAfter(prev: char, s: string): (r: string)
    ensures |r| == |s|
    ensures s != [] ==> r[0] == if IsSeparator(prev) then ToTitle(s[0]) else s[0]
    ensures forall i :: 0 < i < |s| ==> r[i] == if IsSeparator(s[i - 1]) then ToTitle(s[i]) else s[i]
    decreases s
  {
    if s == [] then []
    else [if IsSeparator(prev) then ToTitle(s[0]) else s[0]] + TitleAfter(s[0], s[1..])
  }

  /** Position `i` of `s` begins a word. */
  predicate StartsWord(s: string, i: nat)
    requires i < |s|
  {
    i == 0 || IsSeparator(s[i - 1])
  }

  /** strings.Title starts as if a space preceded the text, so it changes
      exactly the characters that begin a word, and nothing else. */
  function Title(s: string): (r: string)
    ensures |r| == |s|
    ensures forall i :: 0 <= i < |s| ==> r[i] == if StartsWord(s, i) then ToTitle(s[i]) else s[i]
  {
    TitleAfter(' ', s)
  }

  /** Applying Title twice gives the same text as applying it once. */
  lemma TitleIdempotent(s: string)
    ensures Title(Title(s)) == Title(s)
  {
    var t := Title(s);
    forall i | 0 <= i < |s|
      ensures Title(t)[i] == t[i]
    {
      if i > 0 {
        assert StartsWord(t, i) == StartsWord(s, i);
      }
    }
  }

  /** For a single word (no separator before the last character), Title only
      upper-cases the first character and keeps the rest. */
  lemma TitleOfWord(s: string)
    requires s != []
    requires forall i :: 0 <= i < |s| - 1 ==> !IsSeparator(s[i])
    ensures Title(s) == [ToTitle(s[0])] + s[1..]
  {
    var w := [ToTitle(s[0])] + s[1..];
    assert forall i :: 0 <= i < |s| ==> Title(s)[i] == w[i];
  }

  /** An example: a word after a separator is capitalised too, so Title is
      not "upper-case the first character". */
  lemma TitleEveryWord()
    ensures Title("my-func") == "My-Func"
  {
    var t := Title("my-func");
    assert forall i :: 0 <= i < 7 ==> t[i] == "My-Func"[i];
  }
}
