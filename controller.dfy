/** The controller half of SocialAutoCompleteTextView: the set of enabled
    symbols that the installed tokenizer delimits tokens by, and the
    suggestion source (adapter) that the text watcher switches when '#' or
    '@' is typed. */
module SocialAutoComplete {
  import SymbolsTokenizer

  const HashtagSymbol: char := '#'
  const MentionSymbol: char := '@'

  /** The adapter currently installed in the text field. */
  datatype Adapter = None | Hashtag | Mention

  /** The symbols that belong to the two capability flags. */
  function SymbolsFor(hashtagEnabled: bool, mentionEnabled: bool): (s: set<char>)
    ensures HashtagSymbol in s <==> hashtagEnabled
    ensures MentionSymbol in s <==> mentionEnabled
    ensures forall c :: c in s ==> c == HashtagSymbol || c == MentionSymbol
  {
    (if hashtagEnabled then {HashtagSymbol} else {}) +
    (if mentionEnabled then {MentionSymbol} else {})
  }

  /** The adapter after a text change whose first changed character is at
      `start`: '#' selects the hashtag source, '@' the mention source, and
      anything else, an empty text or an out-of-range offset keeps the
      current one. The enabled symbols are not consulted. */
  function AdapterAfterChange(current: Adapter, s: seq<char>, start: int): (a: Adapter)
    requires |s| > 0 && start < |s| ==> 0 <= start
    ensures 0 <= start < |s| && s[start] == HashtagSymbol ==> a == Hashtag
    ensures 0 <= start < |s| && s[start] == MentionSymbol ==> a == Mention
    ensures !(0 <= start < |s| && s[start] in {HashtagSymbol, MentionSymbol}) ==> a == current
  {
    if |s| > 0 && start < |s| then
      if s[start] == HashtagSymbol then Hashtag
      else if s[start] == MentionSymbol then Mention
      else current
    else current
  }

  class SocialAutoCompleteTextView {
    /** The two capability flags (kept by the SocialView delegate). */
    var hashtagEnabled: bool
    var mentionEnabled: bool
    /** The mutable set of symbols the text field tokenizes by. */
    var enabledSymbols: set<char>
    /** The symbols of the tokenizer last installed with setTokenizer. */
    var tokenizerSymbols: set<char>
    var adapter: Adapter

    /** The enabled symbols follow the flags, and the installed tokenizer
        was built from the current set. */
    ghost predicate Valid()
      reads this
    {
      enabledSymbols == SymbolsFor(hashtagEnabled, mentionEnabled) &&
      tokenizerSymbols == enabledSymbols
    }

    /** init: seed the symbols from the flags and install a tokenizer. */
    constructor (hashtagEnabled: bool, mentionEnabled: bool)
      ensures Valid()
      ensures this.hashtagEnabled == hashtagEnabled && this.mentionEnabled == mentionEnabled
      ensures HashtagSymbol in enabledSymbols <==> hashtagEnabled
      ensures MentionSymbol in enabledSymbols <==> mentionEnabled
      ensures forall c :: c in enabledSymbols ==> c == HashtagSymbol || c == MentionSymbol
      ensures tokenizerSymbols == enabledSymbols
      ensures adapter == None
    {
      this.hashtagEnabled := hashtagEnabled;
      this.mentionEnabled := mentionEnabled;
      adapter := None;
      var symbols: set<char> := {};
      if hashtagEnabled {
        symbols := symbols + {HashtagSymbol};
      }
      if mentionEnabled {
        symbols := symbols + {MentionSymbol};
      }
      enabledSymbols := symbols;
      tokenizerSymbols := symbols;
    }

    /** enableSymbol: add the symbol to the set or remove it. In the
        program this is a private helper of the two setters below; called
        on its own it does not keep Valid(), since the flags and the
        installed tokenizer are left as they were. */
    method EnableSymbol(symbol: char, enable: bool)
      modifies this
      ensures enabledSymbols == if enable then old(enabledSymbols) + {symbol} else old(enabledSymbols) - {symbol}
      ensures symbol in enabledSymbols <==> enable
      ensures forall c :: c != symbol ==> (c in enabledSymbols <==> c in old(enabledSymbols))
      ensures hashtagEnabled == old(hashtagEnabled) && mentionEnabled == old(mentionEnabled)
      ensures tokenizerSymbols == old(tokenizerSymbols) && adapter == old(adapter)
    {
      if enable {
        enabledSymbols := enabledSymbols + {symbol};
      } else {
        enabledSymbols := enabledSymbols - {symbol};
      }
    }

    /** setHashtagEnabled: update the flag, add or remove '#', and install a
        tokenizer built from the new set. */
    method SetHashtagEnabled(enabled: bool)
      requires Valid()
      modifies this
      ensures Valid()
      ensures hashtagEnabled == enabled && mentionEnabled == old(mentionEnabled)
      ensures enabledSymbols == if enabled then old(enabledSymbols) + {HashtagSymbol} else old(enabledSymbols) - {HashtagSymbol}
      ensures HashtagSymbol in tokenizerSymbols <==> enabled
      ensures MentionSymbol in tokenizerSymbols <==> MentionSymbol in old(tokenizerSymbols)
      ensures adapter == old(adapter)
    {
      hashtagEnabled := enabled;
      EnableSymbol(HashtagSymbol, enabled);
      tokenizerSymbols := enabledSymbols;
    }

    /** setMentionEnabled: update the flag, add or remove '@', and install a
        tokenizer built from the new set. */
    method SetMentionEnabled(enabled: bool)
      requires Valid()
      modifies this
      ensures Valid()
      ensures mentionEnabled == enabled && hashtagEnabled == old(hashtagEnabled)
      ensures enabledSymbols == if enabled then old(enabledSymbols) + {MentionSymbol} else old(enabledSymbols) - {MentionSymbol}
      ensures MentionSymbol in tokenizerSymbols <==> enabled
      ensures HashtagSymbol in tokenizerSymbols <==> HashtagSymbol in old(tokenizerSymbols)
      ensures adapter == old(adapter)
    {
      mentionEnabled := enabled;
      EnableSymbol(MentionSymbol, enabled);
      tokenizerSymbols := enabledSymbols;
    }

    /** The text watcher's onTextChanged: switch the adapter when the
        character at the change offset is '#' or '@'. */
    method OnTextChanged(s: seq<char>, start: int, before: int, count: int)
      requires Valid()
      requires |s| > 0 && start < |s| ==> 0 <= start
      modifies this
      ensures Valid()
      ensures adapter == AdapterAfterChange(old(adapter), s, start)
      ensures hashtagEnabled == old(hashtagEnabled) && mentionEnabled == old(mentionEnabled)
      ensures enabledSymbols == old(enabledSymbols) && tokenizerSymbols == old(tokenizerSymbols)
    {
      if |s| > 0 && start < |s| {
        if s[start] == HashtagSymbol {
          if adapter != Hashtag {
            adapter := Hashtag;
          }
        } else if s[start] == MentionSymbol {
          if adapter != Mention {
            adapter := Mention;
          }
        }
      }
    }
  }

  /** Enabling and then disabling hashtags gives a tokenizer that no longer
      ends a token at '#'. */
  method ToggleHashtag(mentionEnabled: bool) returns (end: nat)
    ensures end == 4
  {
    var view := new SocialAutoCompleteTextView(false, mentionEnabled);
    view.SetHashtagEnabled(true);
    assert HashtagSymbol in view.tokenizerSymbols;
    view.SetHashtagEnabled(false);
    end := SymbolsTokenizer.FindTokenEnd(view.tokenizerSymbols, "a#bc", 0);
  }

  /** Typing '@' at offset 6 switches to the mention source. */
  method TypeMention(hashtagEnabled: bool, mentionEnabled: bool) returns (a: Adapter)
    ensures a == Mention
  {
    var view := new SocialAutoCompleteTextView(hashtagEnabled, mentionEnabled);
    view.OnTextChanged("hello @", 6, 0, 1);
    a := view.adapter;
  }
}
