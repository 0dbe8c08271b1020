/** `EnhancedTextarea` of src/components/ui/textarea.tsx: the "needs more
    detail" suggestion, the auto-resize height, and the enhance / undo /
    typewriter state machine around a value that the parent owns and
    updates through `onChange`. */
module Textarea {
  import opened Wrappers
  import opened Bounds
  import opened Text

  const MinHeight: int := 80
  const MaxHeight: int := 300

  function GenericTerms(): seq<string> {
    ["app", "platform", "tool", "system", "software", "solution", "service"]
  }

  /** Some of the first `n` terms occurs in `text`. */
  function AnyIncluded(terms: seq<string>, text: string, n: nat): bool
    requires n <= |terms|
  {
    n > 0 && (AnyIncluded(terms, text, n - 1) || Includes(text, terms[n - 1]))
  }

  lemma {:induction false} AnyIncludedExists(terms: seq<string>, text: string, n: nat)
    requires n <= |terms|
    ensures AnyIncluded(terms, text, n) <==> exists i :: 0 <= i < n && Includes(text, terms[i])
  {
    if n > 0 {
      AnyIncludedExists(terms, text, n - 1);
      if Includes(text, terms[n - 1]) {
        assert 0 <= n - 1 < n && Includes(text, terms[n - 1]);
      }
    }
  }

  /** The suggestion test: fewer than ten words, or a generic term in the
      lower-cased text together with fewer than fifteen words. */
  function NeedsSuggestion(value: string): bool {
    var words := WordCount(value);
    words < 10 || (AnyIncluded(GenericTerms(), ToLower(value), |GenericTerms()|) && words < 15)
  }

  /** Both directions of the suggestion test. */
  lemma NeedsSuggestionMeaning(value: string)
    ensures NeedsSuggestion(value) <==>
              WordCount(value) < 10
              || (WordCount(value) < 15
                  && exists i :: 0 <= i < |GenericTerms()| && Includes(ToLower(value), GenericTerms()[i]))
  {
    AnyIncludedExists(GenericTerms(), ToLower(value), |GenericTerms()|);
  }

  /** Fifteen words or more never need a suggestion. */
  lemma LongTextNoSuggestion(value: string)
    requires WordCount(value) >= 15
    ensures !NeedsSuggestion(value)
  {
  }

  /** Whether the suggestion is shown: never for an empty value or while an
      enhancement or a generation is running. */
  function ShowsSuggestion(enabled: bool, value: string, isEnhancing: bool, isGenerating: bool): (b: bool)
    ensures b ==> enabled && value != "" && !isEnhancing && !isGenerating
    ensures b <==> enabled && value != "" && NeedsSuggestion(value) && !isEnhancing && !isGenerating
  {
    if !enabled || value == "" then false
    else NeedsSuggestion(value) && !isEnhancing && !isGenerating
  }

  /** `Math.min(Math.max(scrollHeight, 80), 300)`. */
  function AutoHeight(scrollHeight: int): (h: int)
    ensures MinHeight <= h <= MaxHeight
    ensures MinHeight <= scrollHeight <= MaxHeight ==> h == scrollHeight
  {
    Min(Max(scrollHeight, MinHeight), MaxHeight)
  }

  /** Taller content never gives a shorter box. */
  lemma AutoHeightMonotone(a: int, b: int)
    requires a <= b
    ensures AutoHeight(a) <= AutoHeight(b)
  {
  }

  /** The enhance button appears exactly when it is enabled and the value is
      not blank. */
  function ShowsEnhanceButton(showEnhanceButton: bool, value: string): bool {
    showEnhanceButton && !IsBlank(value)
  }

  /** The button shows exactly when it is enabled and the value holds some
      character that is not whitespace. */
  lemma EnhanceButtonMeaning(showEnhanceButton: bool, value: string)
    ensures ShowsEnhanceButton(showEnhanceButton, value)
            <==> showEnhanceButton && exists i :: 0 <= i < |value| && !IsSpace(value[i])
  {
  }

  /** What the typewriter emits: "" to clear, then every prefix of the text,
      shortest first, ending with the text itself. */
  function TypewriterFrames(text: string): (frames: seq<string>)
    ensures |frames| == |text| + 2
  {
    [""] + seq(|text| + 1, i requires 0 <= i <= |text| => text[..i])
  }

  /** Every frame is a prefix of the next, and the last is the text. */
  lemma TypewriterGrows(text: string)
    ensures var f := TypewriterFrames(text);
            (forall k :: 0 <= k < |f| - 1 ==> f[k] <= f[k + 1] && |f[k + 1]| - |f[k]| <= 1)
            && f[|f| - 1] == text
  {
    var f := TypewriterFrames(text);
    assert f[|f| - 1] == text[..|text|];
  }

  /** The component's own state, the value the parent holds, the props that
      change over time, and every value passed to `onChange` so far. */
  class EnhancedTextarea {
    var value: string
    var originalValue: string
    var showUndo: bool
    var isGenerating: bool
    var showSuggestion: bool
    var isTyping: bool
    var isEnhancing: bool
    var emitted: seq<string>
    const enableSmartSuggestions: bool
    const enableUndo: bool
    const hasOnChange: bool

    constructor (value: string, enableSmartSuggestions: bool, enableUndo: bool, hasOnChange: bool)
      ensures this.value == value && originalValue == ""
      ensures !showUndo && !isGenerating && !showSuggestion && !isTyping && !isEnhancing
      ensures emitted == []
      ensures this.enableSmartSuggestions == enableSmartSuggestions
      ensures this.enableUndo == enableUndo && this.hasOnChange == hasOnChange
    {
      this.value := value;
      originalValue := "";
      showUndo := false;
      isGenerating := false;
      showSuggestion := false;
      isTyping := false;
      isEnhancing := false;
      emitted := [];
      this.enableSmartSuggestions := enableSmartSuggestions;
      this.enableUndo := enableUndo;
      this.hasOnChange := hasOnChange;
    }

    /** `onChange` with a new value; the parent stores it. */
    method Emit(v: string)
      requires hasOnChange
      modifies this
      ensures value == v && emitted == old(emitted) + [v]
      ensures originalValue == old(originalValue) && showUndo == old(showUndo)
      ensures isTyping == old(isTyping) && isGenerating == old(isGenerating)
      ensures isEnhancing == old(isEnhancing) && showSuggestion == old(showSuggestion)
    {
      value := v;
      emitted := emitted + [v];
    }

    /** The suggestion effect. */
    method UpdateSuggestion()
      modifies this
      ensures showSuggestion == ShowsSuggestion(enableSmartSuggestions, value, isEnhancing, isGenerating)
      ensures value == old(value) && originalValue == old(originalValue) && showUndo == old(showUndo)
      ensures isTyping == old(isTyping) && isGenerating == old(isGenerating)
      ensures isEnhancing == old(isEnhancing) && emitted == old(emitted)
    {
      showSuggestion := ShowsSuggestion(enableSmartSuggestions, value, isEnhancing, isGenerating);
    }

    /** `handleEnhanceClick`: a non-blank value is sent trimmed, and the
        untrimmed original is kept for undo. */
    method HandleEnhanceClick(hasOnEnhance: bool) returns (sent: Option<string>)
      modifies this
      ensures sent.Some? <==> hasOnEnhance && !IsBlank(old(value))
      ensures sent.Some? ==> sent.value == Trim(old(value))
      ensures sent.Some? && enableUndo ==> originalValue == old(value)
      ensures !(sent.Some? && enableUndo) ==> originalValue == old(originalValue)
      ensures value == old(value) && showUndo == old(showUndo) && emitted == old(emitted)
      ensures isTyping == old(isTyping) && isGenerating == old(isGenerating) && isEnhancing == old(isEnhancing)
      ensures showSuggestion == old(showSuggestion)
    {
      sent := None;
      if hasOnEnhance && value != "" && !IsBlank(value) {
        if enableUndo {
          originalValue := value;
        }
        sent := Some(Trim(value));
      }
    }

    /** The parent starts or finishes an enhancement. */
    method SetEnhancing(b: bool)
      modifies this
      ensures isEnhancing == b
      ensures value == old(value) && originalValue == old(originalValue) && showUndo == old(showUndo)
      ensures isTyping == old(isTyping) && isGenerating == old(isGenerating)
      ensures emitted == old(emitted) && showSuggestion == old(showSuggestion)
    {
      isEnhancing := b;
    }

    /** The effect that offers undo once an enhancement has finished. */
    method OfferUndo()
      modifies this
      ensures originalValue != "" && enableUndo && !isEnhancing ==> showUndo && !showSuggestion
      ensures !(originalValue != "" && enableUndo && !isEnhancing) ==>
                showUndo == old(showUndo) && showSuggestion == old(showSuggestion)
      ensures value == old(value) && originalValue == old(originalValue) && emitted == old(emitted)
      ensures isTyping == old(isTyping) && isGenerating == old(isGenerating) && isEnhancing == old(isEnhancing)
    {
      if originalValue != "" && enableUndo && !isEnhancing {
        showUndo := true;
        showSuggestion := false;
      }
    }

    /** `handleUndo`: the stored original is emitted as it was, then
        forgotten, and the undo button hides. */
    method HandleUndo()
      modifies this
      ensures old(originalValue) != "" && hasOnChange ==>
                emitted == old(emitted) + [old(originalValue)] && value == old(originalValue)
                && originalValue == "" && !showUndo
      ensures !(old(originalValue) != "" && hasOnChange) ==>
                emitted == old(emitted) && value == old(value)
                && originalValue == old(originalValue) && showUndo == old(showUndo)
      ensures isTyping == old(isTyping) && isGenerating == old(isGenerating) && isEnhancing == old(isEnhancing)
      ensures showSuggestion == old(showSuggestion)
    {
      if originalValue != "" && hasOnChange {
        Emit(originalValue);
        showUndo := false;
        originalValue := "";
      }
    }

    /** `handleChange`: typing while undo is offered, outside the
        typewriter, gives up the undo. */
    method HandleChange(v: string)
      modifies this
      ensures old(showUndo) && !old(isTyping) ==> !showUndo && originalValue == ""
      ensures !(old(showUndo) && !old(isTyping)) ==> showUndo == old(showUndo) && originalValue == old(originalValue)
      ensures hasOnChange ==> value == v && emitted == old(emitted) + [v]
      ensures !hasOnChange ==> value == old(value) && emitted == old(emitted)
      ensures isTyping == old(isTyping) && isGenerating == old(isGenerating) && isEnhancing == old(isEnhancing)
      ensures showSuggestion == old(showSuggestion)
    {
      if showUndo && !isTyping {
        showUndo := false;
        originalValue := "";
      }
      if hasOnChange {
        Emit(v);
      }
    }

    /** `typewriterEffect`: clear the value, then emit every prefix of the
        text in turn. */
    method Typewriter(text: string)
      modifies this
      ensures hasOnChange ==> emitted == old(emitted) + TypewriterFrames(text) && value == text
      ensures !hasOnChange ==> emitted == old(emitted) && value == old(value)
      ensures hasOnChange ==> !isTyping
      ensures !hasOnChange ==> isTyping == old(isTyping)
      ensures originalValue == old(originalValue) && showUndo == old(showUndo)
      ensures isGenerating == old(isGenerating) && isEnhancing == old(isEnhancing)
      ensures showSuggestion == old(showSuggestion)
    {
      if !hasOnChange {
        return;
      }
      isTyping := true;
      Emit("");
      var i := 0;
      while i <= |text|
        invariant 0 <= i <= |text| + 1
        invariant emitted == old(emitted) + [""] + seq(i, k requires 0 <= k < i => text[..k])
        invariant value == if i == 0 then "" else text[..i - 1]
        invariant isTyping
        invariant originalValue == old(originalValue) && showUndo == old(showUndo)
        invariant isGenerating == old(isGenerating) && isEnhancing == old(isEnhancing)
        invariant showSuggestion == old(showSuggestion)
      {
        Emit(text[..i]);
        i := i + 1;
      }
      assert text[..|text|] == text;
      isTyping := false;
    }

    /** `handleGenerateIdea`. Replacing existing content needs the user's
        confirmation. On an idea (`outcome` is the success flag and the
        idea; None when generation throws) the old content is kept for undo
        after a successful call, and the idea is typed in. */
    method HandleGenerateIdea(confirmed: bool, outcome: Option<(bool, string)>)
      modifies this
      ensures !IsBlank(old(value)) && !confirmed ==>
                value == old(value) && emitted == old(emitted) && originalValue == old(originalValue)
                && isGenerating == old(isGenerating) && isTyping == old(isTyping)
      ensures (IsBlank(old(value)) || confirmed) ==> !isGenerating
      ensures (IsBlank(old(value)) || confirmed) && outcome.Some? && hasOnChange ==>
                value == outcome.value.1 && emitted == old(emitted) + TypewriterFrames(outcome.value.1)
                && !isTyping
      ensures outcome.None? || !hasOnChange ==>
                value == old(value) && emitted == old(emitted) && isTyping == old(isTyping)
      ensures confirmed && outcome.Some? && outcome.value.0 && !IsBlank(old(value)) && enableUndo ==>
                originalValue == old(value)
      ensures !(confirmed && outcome.Some? && outcome.value.0 && !IsBlank(old(value)) && enableUndo) ==>
                originalValue == old(originalValue)
      ensures showUndo == old(showUndo) && showSuggestion == old(showSuggestion)
      ensures isEnhancing == old(isEnhancing)
    {
      var hasContent := value != "" && !IsBlank(value);
      if hasContent && !confirmed {
        return;
      }
      isGenerating := true;
      if outcome.Some? {
        var (success, idea) := outcome.value;
        if success && hasContent && enableUndo {
          originalValue := value;
        }
        Typewriter(idea);
      }
      isGenerating := false;
    }
  }

  // ------------------------------------------------------------ examples

  /** A single non-blank word is one word. */
  lemma OneWord(w: string)
    requires |w| > 0 && NoSpace(w)
    ensures WordCount(w) == 1
  {
    TrimUntouched(w);
    SplitSingleWord(w);
  }

  /** "app" and "platform" are one word each and need a suggestion. */
  lemma SingleWordsNeedSuggestion()
    ensures NeedsSuggestion("app") && NeedsSuggestion("platform")
  {
    OneWord("app");
    OneWord("platform");
  }

  /** Fewer than ten words always need a suggestion. */
  lemma FewWordsNeedSuggestion(value: string)
    requires WordCount(value) < 10
    ensures NeedsSuggestion(value)
  {
  }

  /** Words joined by single spaces split back into the same words. */
  lemma {:induction false} SplitJoined(words: seq<string>)
    requires |words| >= 1
    requires forall i :: 0 <= i < |words| ==> |words[i]| > 0 && NoSpace(words[i])
    ensures SplitOnSpaces(JoinWith(words, ' ')) == words
    decreases |words|
  {
    if |words| == 1 {
      SplitSingleWord(words[0]);
    } else {
      var rest := JoinWith(words[1..], ' ');
      SplitJoined(words[1..]);
      assert rest == [] || !IsSpace(rest[0]) by {
        JoinStartsWithFirst(words[1..]);
      }
      assert JoinWith(words, ' ') == words[0] + " " + rest;
      SplitWordThenSpace(words[0], rest);
      assert [words[0]] + words[1..] == words;
    }
  }

  /** A join starts with the first word and ends with the last. */
  lemma {:induction false} JoinStartsWithFirst(words: seq<string>)
    requires |words| >= 1 && forall i :: 0 <= i < |words| ==> |words[i]| > 0
    ensures var s := JoinWith(words, ' ');
            |s| > 0 && s[0] == words[0][0] && s[|s| - 1] == words[|words| - 1][|words[|words| - 1]| - 1]
    decreases |words|
  {
    if |words| > 1 {
      JoinStartsWithFirst(words[1..]);
    }
  }

  /** Non-blank words joined by single spaces: the word count is the number
      of words. */
  lemma WordCountJoined(words: seq<string>)
    requires |words| >= 1
    requires forall i :: 0 <= i < |words| ==> |words[i]| > 0 && NoSpace(words[i])
    ensures WordCount(JoinWith(words, ' ')) == |words|
  {
    var s := JoinWith(words, ' ');
    JoinStartsWithFirst(words);
    TrimUntouched(s);
    SplitJoined(words);
  }

  /** "tool for teams" is three words and needs a suggestion. */
  lemma ToolForTeamsNeedsSuggestion()
    ensures NeedsSuggestion(JoinWith(["tool", "for", "teams"], ' '))
  {
    WordCountJoined(["tool", "for", "teams"]);
    FewWordsNeedSuggestion(JoinWith(["tool", "for", "teams"], ' '));
  }

  /** "A comprehensive project management solution" is five words, so the
      predicate asks for more detail. */
  lemma ComprehensiveSolutionNeedsSuggestion()
    ensures NeedsSuggestion(JoinWith(["A", "comprehensive", "project", "management", "solution"], ' '))
  {
    var words := ["A", "comprehensive", "project", "management", "solution"];
    WordCountJoined(words);
    FewWordsNeedSuggestion(JoinWith(words, ' '));
  }
}
