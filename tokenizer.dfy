/** The token-boundary scanner of SocialAutoCompleteTextView.
    Like MultiAutoCompleteTextView's comma tokenizer, but a token is
    delimited by any character of a configurable symbol set (normally
    '#' and '@'). Each query of the source is a `while` loop over a local
    index; here each is a method with that loop, proved against a
    recursive specification function, and each specification function is
    tied by lemmas to a declarative description of the boundary it finds. */
module SymbolsTokenizer {

  /** A character sequence as the tokenizer receives it: its characters and
      whether it is a styled (Spanned) text. */
  datatype Text = Text(chars: seq<char>, spanned: bool)

  function Min(a: int, b: int): int
  {
    if a <= b then a else b
  }

  // ---------------------------------------------------------------------
  // findTokenStart
  // ---------------------------------------------------------------------

  /** Where the first loop of findTokenStart stops when it starts at `i`:
      it steps left while the character before the index is not a symbol. */
  function ScanBack(symbols: set<char>, text: seq<char>, i: int): (p: int)
    requires i <= |text|
    ensures p <= i
    ensures i < 0 ==> p == i
    ensures 0 <= i ==> IsScanStop(symbols, text, i, p)
    decreases i
  {
    if i <= 0 || text[i - 1] in symbols then i else ScanBack(symbols, text, i - 1)
  }

  /** Where the second loop of findTokenStart stops: it steps right over
      plain spaces, never past the cursor. */
  function SkipSpaces(text: seq<char>, i: int, cursor: int): (r: int)
    requires i <= cursor <= |text|
    requires i < cursor ==> 0 <= i
    ensures i <= r <= cursor
    ensures 0 <= i ==> IsSpaceSkip(text, i, cursor, r)
    decreases cursor - i
  {
    if i < cursor && text[i] == ' ' then SkipSpaces(text, i + 1, cursor) else i
  }

  /** The value findTokenStart returns. A negative cursor is returned
      unchanged. Otherwise the start lies in [0, cursor], no symbol lies
      between it and the cursor, and it is the cursor or not a space. */
  function TokenStart(symbols: set<char>, text: seq<char>, cursor: int): (r: int)
    requires cursor <= |text|
    ensures cursor < 0 ==> r == cursor
    ensures 0 <= cursor ==> 0 <= r <= cursor
    ensures 0 <= cursor ==> forall k :: r <= k < cursor ==> text[k] !in symbols
    ensures 0 <= cursor ==> r == cursor || text[r] != ' '
  {
    SkipSpaces(text, ScanBack(symbols, text, cursor), cursor)
  }

  /** `p` is where a leftward scan from `cursor` may stop: it lies in
      [0, cursor], it is the start of the text or follows a symbol, and
      no symbol lies in text[p..cursor). */
  ghost predicate IsScanStop(symbols: set<char>, text: seq<char>, cursor: int, p: int)
    requires 0 <= cursor <= |text|
  {
    0 <= p <= cursor &&
    (p == 0 || text[p - 1] in symbols) &&
    forall k :: p <= k < cursor ==> text[k] !in symbols
  }

  /** `r` is where a rightward skip of spaces from `p` may stop: every
      character of text[p..r) is a space, and `r` is the cursor or is not
      a space. */
  ghost predicate IsSpaceSkip(text: seq<char>, p: int, cursor: int, r: int)
    requires 0 <= p <= cursor <= |text|
  {
    p <= r <= cursor &&
    (forall k :: p <= k < r ==> text[k] == ' ') &&
    (r == cursor || text[r] != ' ')
  }

  /** The leftward scan stops exactly at the one index that IsScanStop
      describes. */
  lemma ScanBackCharacterized(symbols: set<char>, text: seq<char>, cursor: int, p: int)
    requires 0 <= cursor <= |text|
    ensures IsScanStop(symbols, text, cursor, p) <==> p == ScanBack(symbols, text, cursor)
  {
  }

  /** The skip of spaces stops exactly at the one index that IsSpaceSkip
      describes. */
  lemma SkipSpacesCharacterized(text: seq<char>, p: int, cursor: int, r: int)
    requires 0 <= p <= cursor <= |text|
    ensures IsSpaceSkip(text, p, cursor, r) <==> r == SkipSpaces(text, p, cursor)
  {
  }

  /** The token start is found by a scan to the nearest symbol on the left
      followed by a skip of spaces; these two describe it completely. */
  lemma TokenStartCharacterized(symbols: set<char>, text: seq<char>, cursor: int, r: int)
    requires 0 <= cursor <= |text|
    ensures var p := ScanBack(symbols, text, cursor);
      IsScanStop(symbols, text, cursor, p) &&
      (IsSpaceSkip(text, p, cursor, r) <==> r == TokenStart(symbols, text, cursor))
  {
  }

  /** Number of spaces at the head of `s`. */
  function LeadingSpaces(s: seq<char>): (n: nat)
    ensures n <= |s|
    ensures forall k :: 0 <= k < n ==> s[k] == ' '
    ensures n == |s| || s[n] != ' '
  {
    if |s| > 0 && s[0] == ' ' then 1 + LeadingSpaces(s[1..]) else 0
  }

  /** With no symbols the leftward scan runs to the start of the text, so
      the token starts after the leading spaces, but never after the
      cursor. */
  lemma TokenStartNoSymbols(text: seq<char>, cursor: int)
    requires 0 <= cursor <= |text|
    ensures TokenStart({}, text, cursor) == Min(LeadingSpaces(text), cursor)
  {
  }

  /** findTokenStart: scan left to the nearest symbol, then skip spaces
      forward, never past the cursor. */
  method FindTokenStart(symbols: set<char>, text: seq<char>, cursor: int) returns (r: int)
    requires cursor <= |text|
    ensures r == TokenStart(symbols, text, cursor)
    ensures cursor < 0 ==> r == cursor
    ensures 0 <= cursor ==> 0 <= r <= cursor
    ensures 0 <= cursor ==> forall k :: r <= k < cursor ==> text[k] !in symbols
  {
    var i := cursor;
    while i > 0 && text[i - 1] !in symbols
      invariant i <= cursor
      invariant 0 <= cursor ==> 0 <= i
      invariant cursor < 0 ==> i == cursor
      invariant ScanBack(symbols, text, i) == ScanBack(symbols, text, cursor)
      invariant forall k :: i <= k < cursor ==> text[k] !in symbols
      decreases i
    {
      i := i - 1;
    }
    ghost var p := i;
    while i < cursor && text[i] == ' '
      invariant p <= i <= cursor
      invariant SkipSpaces(text, i, cursor) == SkipSpaces(text, p, cursor)
      decreases cursor - i
    {
      i := i + 1;
    }
    r := i;
  }

  // ---------------------------------------------------------------------
  // findTokenEnd
  // ---------------------------------------------------------------------

  /** The value findTokenEnd returns: the first index at or after the
      cursor that holds a symbol, or the length of the text. */
  function TokenEnd(symbols: set<char>, text: seq<char>, cursor: nat): (r: nat)
    ensures |text| < cursor ==> r == |text|
    ensures cursor <= |text| ==> IsTokenEnd(symbols, text, cursor, r)
    decreases |text| - cursor
  {
    if cursor >= |text| then |text|
    else if text[cursor] in symbols then cursor
    else TokenEnd(symbols, text, cursor + 1)
  }

  /** `r` is the first symbol at or after the cursor, or the end of the
      text when there is none. Spaces do not end a token. */
  ghost predicate IsTokenEnd(symbols: set<char>, text: seq<char>, cursor: nat, r: int)
    requires cursor <= |text|
  {
    cursor <= r <= |text| &&
    (forall k :: cursor <= k < r ==> text[k] !in symbols) &&
    (r == |text| || text[r] in symbols)
  }

  /** TokenEnd is exactly the index IsTokenEnd describes. */
  lemma TokenEndCharacterized(symbols: set<char>, text: seq<char>, cursor: nat, r: int)
    requires cursor <= |text|
    ensures IsTokenEnd(symbols, text, cursor, r) <==> r == TokenEnd(symbols, text, cursor)
  {
  }

  /** With no symbols the whole rest of the text is one token. */
  lemma TokenEndNoSymbols(text: seq<char>, cursor: nat)
    ensures TokenEnd({}, text, cursor) == |text|
  {
  }

  /** findTokenEnd: scan right to the first symbol or to the end of the
      text. A cursor past the end yields the length of the text. */
  method FindTokenEnd(symbols: set<char>, text: seq<char>, cursor: nat) returns (r: nat)
    ensures r == TokenEnd(symbols, text, cursor)
    ensures cursor <= |text| ==> cursor <= r <= |text|
    ensures forall k :: cursor <= k < r ==> text[k] !in symbols
    ensures r < |text| ==> text[r] in symbols
    ensures |text| < cursor ==> r == |text|
    ensures cursor < |text| && text[cursor] in symbols ==> r == cursor
  {
    var i := cursor;
    var len := |text|;
    while i < len
      invariant if cursor <= len then cursor <= i <= len else i == cursor
      invariant TokenEnd(symbols, text, i) == TokenEnd(symbols, text, cursor)
      invariant forall k :: cursor <= k < i ==> text[k] !in symbols
      decreases len - i
    {
      if text[i] in symbols {
        return i;
      }
      i := i + 1;
    }
    return len;
  }

  /** The token around a cursor contains the cursor. */
  lemma TokenContainsCursor(symbols: set<char>, text: seq<char>, cursor: nat)
    requires cursor <= |text|
    ensures 0 <= TokenStart(symbols, text, cursor) <= cursor <= TokenEnd(symbols, text, cursor) <= |text|
  {
  }

  // ---------------------------------------------------------------------
  // terminateToken
  // ---------------------------------------------------------------------

  /** Where the loop of terminateToken stops when it starts at `i`: it
      steps left over trailing spaces. */
  function TrimEnd(s: seq<char>, i: nat): (n: nat)
    requires i <= |s|
    ensures n <= i
    ensures forall k :: n <= k < i ==> s[k] == ' '
    ensures n == 0 || s[n - 1] != ' '
    decreases i
  {
    if i > 0 && s[i - 1] == ' ' then TrimEnd(s, i - 1) else i
  }

  /** Length of `s` without its trailing spaces. */
  function TrimmedLength(s: seq<char>): nat
  {
    TrimEnd(s, |s|)
  }

  /** Declaratively: some character that is not a space, followed only by
      spaces, is a symbol. */
  ghost predicate LastNonSpaceIsSymbol(symbols: set<char>, s: seq<char>)
  {
    exists j :: 0 <= j < |s| && s[j] != ' ' && s[j] in symbols &&
      forall k :: j < k < |s| ==> s[k] == ' '
  }

  /** The last non-space character is the one just before the trimmed
      length, so it is a symbol exactly when that one is. */
  lemma TrimmedLastIsSymbol(symbols: set<char>, s: seq<char>)
    ensures var n := TrimmedLength(s);
      LastNonSpaceIsSymbol(symbols, s) <==> n > 0 && s[n - 1] in symbols
  {
  }

  /** The test terminateToken makes, on the index its loop stops at: the
      last character before the trailing spaces exists and is a symbol. */
  function EndsWithSymbol(symbols: set<char>, s: seq<char>): (b: bool)
    ensures b <==> LastNonSpaceIsSymbol(symbols, s)
  {
    TrimmedLastIsSymbol(symbols, s);
    var n := TrimmedLength(s);
    n > 0 && s[n - 1] in symbols
  }

  /** The value terminateToken returns: the text itself when its last
      non-space character is a symbol, otherwise its characters followed
      by exactly one space, styled if the input was styled. */
  function Terminate(symbols: set<char>, text: Text): (r: Text)
    ensures r == text <==> LastNonSpaceIsSymbol(symbols, text.chars)
    ensures !LastNonSpaceIsSymbol(symbols, text.chars) ==> r == Text(text.chars + [' '], text.spanned)
  {
    if EndsWithSymbol(symbols, text.chars) then text
    else if text.spanned then Text(text.chars + [' '], true)
    else Text(text.chars + [' '], false)
  }

  /** Appending spaces does not move the trimmed end, for any start of
      the trimming loop inside the original text. */
  lemma {:induction false} TrimEndAppendSpace(s: seq<char>, i: nat)
    requires i <= |s|
    ensures TrimEnd(s + [' '], i) == TrimEnd(s, i)
    decreases i
  {
    if i > 0 {
      assert (s + [' '])[i - 1] == s[i - 1];
      TrimEndAppendSpace(s, i - 1);
    }
  }

  /** A space appended by terminateToken does not change the test it makes. */
  lemma EndsWithSymbolAppendSpace(symbols: set<char>, s: seq<char>)
    ensures EndsWithSymbol(symbols, s + [' ']) == EndsWithSymbol(symbols, s)
  {
    var t := s + [' '];
    assert TrimmedLength(t) == TrimEnd(t, |s|);
    TrimEndAppendSpace(s, |s|);
  }

  /** terminateToken is idempotent on a token that already ends in a
      symbol, and otherwise appends one more space on every call. */
  lemma TerminateTwice(symbols: set<char>, text: Text)
    ensures Terminate(symbols, Terminate(symbols, text)) ==
      if LastNonSpaceIsSymbol(symbols, text.chars) then text
      else Text(text.chars + [' ', ' '], text.spanned)
  {
    EndsWithSymbolAppendSpace(symbols, text.chars);
    assert text.chars + [' '] + [' '] == text.chars + [' ', ' '];
  }

  /** terminateToken: return the text unchanged when its last non-space
      character is a symbol; otherwise return it followed by one space,
      styled if the input was styled. */
  method TerminateToken(symbols: set<char>, text: Text) returns (r: Text)
    ensures r == Terminate(symbols, text)
    ensures LastNonSpaceIsSymbol(symbols, text.chars) ==> r == text
    ensures !LastNonSpaceIsSymbol(symbols, text.chars) ==>
      r.chars == text.chars + [' '] && r.spanned == text.spanned
  {
    var chars := text.chars;
    var i := |chars|;
    while i > 0 && chars[i - 1] == ' '
      invariant 0 <= i <= |chars|
      invariant TrimEnd(chars, i) == TrimmedLength(chars)
      decreases i
    {
      i := i - 1;
    }
    if i > 0 && chars[i - 1] in symbols {
      r := text;
    } else if text.spanned {
      r := Text(chars + [' '], true);
    } else {
      r := Text(chars + [' '], false);
    }
  }

  // ---------------------------------------------------------------------
  // Worked examples
  // ---------------------------------------------------------------------

  /** Inside "#tag" of "hello #tag world" the token starts at 't' and,
      because spaces do not end a token, runs to the end of the text. */
  lemma HashtagInsideText()
    ensures TokenStart({'#'}, "hello #tag world", 8) == 7
    ensures TokenEnd({'#'}, "hello #tag world", 8) == 16
  {
  }

  /** A mention at the end of the text: the token is "user". */
  lemma MentionAtEnd()
    ensures TokenStart({'#', '@'}, "@user", 5) == 1
    ensures TokenEnd({'#', '@'}, "@user", 5) == 5
  {
  }

  /** "#tag" does not end in a symbol, so one space is appended. */
  lemma TerminateHashtag()
    ensures Terminate({'#'}, Text("#tag", false)) == Text("#tag ", false)
  {
  }
}
