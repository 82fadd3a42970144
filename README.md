# SocialAutoCompleteTextView: symbol tokenizer and controller

A Dafny model of the core of `SocialAutoCompleteTextView`, a multi-token
auto-complete text field in which `#` starts a hashtag and `@` a mention.
It has two parts.

- `SymbolsTokenizer` (tokenizer.dfy) is the token-boundary scanner that the
  text field asks where the token under the cursor starts and ends, and
  how to terminate a committed suggestion. Its tokens are delimited by the
  enabled symbols, not by commas. Each of the three queries is a `while`
  loop in the source. Here each one is a method with that loop, proved
  against a recursive specification function (`TokenStart`, `TokenEnd`,
  `Terminate`). Each function's contract states the boundary it finds in
  declarative terms (`IsScanStop`, `IsSpaceSkip`, `IsTokenEnd`,
  `LastNonSpaceIsSymbol`). Lemmas add that this boundary is unique, so the
  declarative description and the function agree in both directions.
- `SocialAutoComplete` (controller.dfy) is the class
  `SocialAutoCompleteTextView`. It holds the two capability flags, the
  mutable set of enabled symbols, the symbols of the installed tokenizer
  and the active adapter (`None`, `Hashtag` or `Mention`). Its `Valid()`
  invariant says that the enabled symbols are exactly those of the enabled
  flags and that the installed tokenizer was built from the current set.

The text is a `seq<char>` and the symbol set a `set<char>`. The input of
`terminateToken` is a `Text` with its characters and a flag saying whether
it is styled (`Spanned`). Offsets are unbounded integers. No 32-bit
overflow can happen in the source, because every index stays between 0 and
the cursor or the text length.

Preconditions are the conditions under which the source does not throw an
index-out-of-bounds exception:
- `findTokenStart` throws when `cursor > |text|`. A negative cursor is
  returned unchanged.
- `findTokenEnd` throws when `cursor < 0`. A cursor past the end returns
  `|text|`.
- `onTextChanged` indexes `s[start]` only when `s` is non-empty and
  `start < |s|`. It throws only when, in addition, `start < 0`.

Two behaviours of the program worth knowing:
- `findTokenEnd` stops only at a symbol, never at a space. For `{'#'}`,
  `"hello #tag world"` and cursor 8 the end is 16, the end of the text
  (`HashtagInsideText`).
- With no symbols, `findTokenStart` returns the number of leading spaces,
  capped at the cursor (`TokenStartNoSymbols`).

## Model

| member | source | states |
|---|---|---|
| `SymbolsTokenizer.FindTokenStart` | socialview-commons/src/com/hendraanggrian/widget/SocialAutoCompleteTextView.kt:74-79 | The result is `TokenStart` of the input. A negative cursor is returned unchanged. Otherwise the result lies in `[0, cursor]` and no character of `text[r..cursor)` is a symbol. |
| `SymbolsTokenizer.ScanBack` | socialview-commons/src/com/hendraanggrian/widget/SocialAutoCompleteTextView.kt:75-76 | The leftward scan never moves right of its start, and a negative start is returned unchanged. From a non-negative start it stops at a point in `[0, start]` that is 0 or follows a symbol, with no symbol between it and the start (`IsScanStop`). |
| `SymbolsTokenizer.SkipSpaces` | socialview-commons/src/com/hendraanggrian/widget/SocialAutoCompleteTextView.kt:77 | The skip of spaces ends between its start and the cursor. It passes only spaces and stops at the cursor or at a non-space (`IsSpaceSkip`). |
| `SymbolsTokenizer.TokenStart` | socialview-commons/src/com/hendraanggrian/widget/SocialAutoCompleteTextView.kt:74-79 | The value `findTokenStart` returns. A negative cursor is returned unchanged. Otherwise it lies in `[0, cursor]`, no symbol lies in `text[r..cursor)`, and it is the cursor or a non-space. |
| `SymbolsTokenizer.ScanBackCharacterized` | socialview-commons/src/com/hendraanggrian/widget/SocialAutoCompleteTextView.kt:76 | The first loop stops at `p` exactly when `p` is in `[0, cursor]`, is 0 or follows a symbol, and `text[p..cursor)` holds no symbol. This is an iff, so that stop is unique. |
| `SymbolsTokenizer.SkipSpacesCharacterized` | socialview-commons/src/com/hendraanggrian/widget/SocialAutoCompleteTextView.kt:77 | The second loop stops at `r` exactly when `text[p..r)` is all spaces and `r` is the cursor or `text[r]` is not a space (an iff). |
| `SymbolsTokenizer.TokenStartCharacterized` | socialview-commons/src/com/hendraanggrian/widget/SocialAutoCompleteTextView.kt:74-79 | The token start is the unique `r` that follows the scan's stopping point by a run of spaces and ends at the cursor or at a non-space. That stopping point is 0 or follows a symbol. |
| `SymbolsTokenizer.LeadingSpaces` | socialview-commons/src/com/hendraanggrian/widget/SocialAutoCompleteTextView.kt:77 | The count of leading spaces is within the text, covers only spaces, and is followed by the end of the text or a non-space. |
| `SymbolsTokenizer.TokenStartNoSymbols` | socialview-commons/src/com/hendraanggrian/widget/SocialAutoCompleteTextView.kt:76-77 | With an empty symbol set the token starts at `min(leading spaces, cursor)`. It is 0 when the text does not start with a space. |
| `SymbolsTokenizer.TokenEnd` | socialview-commons/src/com/hendraanggrian/widget/SocialAutoCompleteTextView.kt:81-86 | The value `findTokenEnd` returns. A cursor past the end gives `|text|`. Otherwise it lies in `[cursor, |text|]`, no symbol lies in `text[cursor..r)`, and it is the end or a symbol (`IsTokenEnd`). |
| `SymbolsTokenizer.FindTokenEnd` | socialview-commons/src/com/hendraanggrian/widget/SocialAutoCompleteTextView.kt:81-86 | The result is `TokenEnd` of the input. For a cursor within the text it lies in `[cursor, |text|]`, no symbol lies in `text[cursor..r)`, and `r` is the end or a symbol, so it is the first symbol at or after the cursor. A symbol at the cursor gives the cursor. A cursor past the end gives `|text|`. |
| `SymbolsTokenizer.TokenEndCharacterized` | socialview-commons/src/com/hendraanggrian/widget/SocialAutoCompleteTextView.kt:81-86 | `TokenEnd` is exactly the first symbol at or after the cursor, or the length of the text when there is none (an iff: the result is unique). |
| `SymbolsTokenizer.TokenEndNoSymbols` | socialview-commons/src/com/hendraanggrian/widget/SocialAutoCompleteTextView.kt:84-85 | With an empty symbol set the token end is the length of the text. |
| `SymbolsTokenizer.TokenContainsCursor` | socialview-commons/src/com/hendraanggrian/widget/SocialAutoCompleteTextView.kt:74-86 | For a cursor within the text, `0 <= start <= cursor <= end <= |text|`. |
| `SymbolsTokenizer.TrimEnd` | socialview-commons/src/com/hendraanggrian/widget/SocialAutoCompleteTextView.kt:89-90 | The trimming loop never moves right of its start. It passes only spaces, and the character before the stop, if any, is not a space. |
| `SymbolsTokenizer.EndsWithSymbol` | socialview-commons/src/com/hendraanggrian/widget/SocialAutoCompleteTextView.kt:89-92 | The test that `terminateToken` makes (`i > 0` and `text[i-1]` a symbol after trimming) holds exactly when the last non-space character exists and is a symbol (an iff with `LastNonSpaceIsSymbol`). |
| `SymbolsTokenizer.TrimmedLastIsSymbol` | socialview-commons/src/com/hendraanggrian/widget/SocialAutoCompleteTextView.kt:89-92 | The character just before the trimmed length is a symbol exactly when the last non-space character exists and is a symbol. |
| `SymbolsTokenizer.TrimEndAppendSpace` | socialview-commons/src/com/hendraanggrian/widget/SocialAutoCompleteTextView.kt:90 | Appending a space does not change where trimming from any index inside the original text stops. |
| `SymbolsTokenizer.EndsWithSymbolAppendSpace` | socialview-commons/src/com/hendraanggrian/widget/SocialAutoCompleteTextView.kt:89-92 | The space that `terminateToken` appends does not change its own test. |
| `SymbolsTokenizer.Terminate` | socialview-commons/src/com/hendraanggrian/widget/SocialAutoCompleteTextView.kt:91-99 | The value `terminateToken` returns. It is the input itself exactly when the last non-space character is a symbol. Otherwise it is the input's characters followed by one space, styled iff the input was. |
| `SymbolsTokenizer.TerminateTwice` | socialview-commons/src/com/hendraanggrian/widget/SocialAutoCompleteTextView.kt:88-99 | Terminating twice returns the text unchanged when it ends in a symbol (idempotent). Otherwise it returns the text followed by two spaces (not idempotent). |
| `SymbolsTokenizer.TerminateToken` | socialview-commons/src/com/hendraanggrian/widget/SocialAutoCompleteTextView.kt:88-99 | The result is `Terminate` of the input. If the last non-space character is a symbol, the text is returned unchanged. Otherwise the result is the input's characters followed by exactly one space, including for empty or all-space input. The styled and plain branches give the same characters, and the result is styled iff the input was. |
| `SymbolsTokenizer.HashtagInsideText` | socialview-commons/src/com/hendraanggrian/widget/SocialAutoCompleteTextView.kt:74-86 | With `{'#'}`, `"hello #tag world"` and cursor 8, the token starts at 7 and ends at 16, the end of the text. |
| `SymbolsTokenizer.MentionAtEnd` | socialview-commons/src/com/hendraanggrian/widget/SocialAutoCompleteTextView.kt:74-86 | With `{'#','@'}`, `"@user"` and cursor 5, the token starts at 1 and ends at 5. |
| `SymbolsTokenizer.TerminateHashtag` | socialview-commons/src/com/hendraanggrian/widget/SocialAutoCompleteTextView.kt:88-99 | With `{'#'}`, `terminateToken("#tag")` is `"#tag "`. |
| `SocialAutoComplete.SymbolsFor` | socialview-commons/src/com/hendraanggrian/widget/SocialAutoCompleteTextView.kt:45-46 | The seeded set holds `'#'` iff hashtags are enabled, `'@'` iff mentions are enabled, and nothing else. |
| `SocialAutoComplete.AdapterAfterChange` | socialview-commons/src/com/hendraanggrian/widget/SocialAutoCompleteTextView.kt:31-34 | `'#'` at an in-range offset selects Hashtag and `'@'` selects Mention. Any other character, an empty text or an out-of-range offset keeps the current adapter. The enabled symbols are not an input. |
| `SocialAutoComplete.SocialAutoCompleteTextView.constructor` | socialview-commons/src/com/hendraanggrian/widget/SocialAutoCompleteTextView.kt:42-48 | `'#'` is enabled iff the hashtag flag is set and `'@'` iff the mention flag is. No other symbol is enabled. The installed tokenizer uses that set and no adapter is active. |
| `SocialAutoComplete.SocialAutoCompleteTextView.EnableSymbol` | socialview-commons/src/com/hendraanggrian/widget/SocialAutoCompleteTextView.kt:62-66 | Enabling adds the symbol and disabling removes it. No other symbol changes, and neither do the flags, the installed tokenizer or the adapter. |
| `SocialAutoComplete.SocialAutoCompleteTextView.SetHashtagEnabled` | socialview-commons/src/com/hendraanggrian/widget/SocialAutoCompleteTextView.kt:50-54 | Sets the hashtag flag and adds or removes only `'#'`. It installs a tokenizer built from the new set, keeps `Valid()`, and leaves the mention flag and the adapter alone. |
| `SocialAutoComplete.SocialAutoCompleteTextView.SetMentionEnabled` | socialview-commons/src/com/hendraanggrian/widget/SocialAutoCompleteTextView.kt:56-60 | Sets the mention flag and adds or removes only `'@'`. It installs a tokenizer built from the new set, keeps `Valid()`, and leaves the hashtag flag and the adapter alone. |
| `SocialAutoComplete.SocialAutoCompleteTextView.OnTextChanged` | socialview-commons/src/com/hendraanggrian/widget/SocialAutoCompleteTextView.kt:30-35 | The new adapter is `AdapterAfterChange` of the old one. The flags, the enabled symbols and the tokenizer are unchanged, so `Valid()` is kept. |
| `SocialAutoComplete.ToggleHashtag` | socialview-commons/src/com/hendraanggrian/widget/SocialAutoCompleteTextView.kt:50-54 | After hashtags are enabled and then disabled, the tokenizer no longer ends a token at `'#'`: the token of `"a#bc"` from 0 runs to 4. |
| `SocialAutoComplete.TypeMention` | socialview-commons/src/com/hendraanggrian/widget/SocialAutoCompleteTextView.kt:30-35 | Typing `'@'` at offset 6 of a fresh view switches the adapter to Mention. |

## Left out

- Android view plumbing: the `Context`, the `AttributeSet`, the superclass,
  the registration of the text watcher, and the empty `beforeTextChanged`
  and `afterTextChanged` callbacks.
- `SocialViewImpl`, `initialize`, `isHashtagEnabled` and the
  `super.setHashtagEnabled` and `super.setMentionEnabled` calls are not
  part of this model. The flags they keep are plain boolean fields here,
  and the constructor takes their initial values as parameters.
- Span copying (`SpannableString`, `copySpansFrom`) is a library call. Only
  the characters of the result and whether it is styled are modelled.
- Adapters: their contents, what happens when an adapter is `null`, and
  the `!==` reference test. Adapters are the tags `None`, `Hashtag` and
  `Mention`. The test only skips a redundant `setAdapter` call, so it does
  not change the resulting tag.
- The source's tokenizer holds a reference to the live mutable symbol set.
  The model gives the tokenizer a snapshot of the set (`tokenizerSymbols`),
  taken whenever the source installs a new tokenizer. The aliasing is not
  modelled.
- Characters: each Dafny `char` stands for one UTF-16 code unit of the
  source's `CharSequence`, and offsets count those units. A Dafny `char` is
  a Unicode scalar value, so a surrogate half cannot be written. Replacing
  each surrogate half with any character that is neither a space nor a
  symbol gives the same offsets and results, because the tokenizer only
  compares characters with `' '` and with the symbols.
- Exceptions: the model requires the offsets for which the source does not
  throw, instead of modelling the exception.
