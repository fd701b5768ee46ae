# presswork text pipeline, modelled in Dafny

presswork makes new text from sample text. Its pipeline:

- splits the text into sentences and words;
- builds an n-gram Markov model of the text;
- random-walks that model to produce new sentences;
- joins the tokens back into a string.

This project models that pipeline in Dafny and proves properties of both the model and its operations. Every random draw (`random.random()`, `random.choice`, `random.randint`) becomes an explicit input stream, so each operation is deterministic.

The stream is `RandomSource.Draws`: a function from positions to reals in `[0, 1)`. It is passed together with the current position. The joiners' own `random` generator is modelled by the class `RandomSource.Random`, which keeps its position as a field.

The modules follow the repository's files:

- `Utils`, `SentencesAndWords`, `Sanitize` and `TemplateFilters` model `presswork/utils.py`, `presswork/text/sentences_and_words.py`, `presswork/sanitize.py` and `presswork/flask_app/template_filters.py` (string transforms only).
- `Clean` models `presswork/text/clean.py`: control-character removal, quote simplification, floating punctuation, `CleanInputString` and `OutputProofreader`.
- `Containers` and `Tokenizers` model `presswork/text/grammar/containers.py` and `presswork/text/grammar/tokenizers.py`. `Joiners` models `presswork/text/grammar/joiners.py`.
- `Grammar` models the older `presswork/text/grammar.py`: its joiners (which keep empty words), `StringProofreader`, the whitespace tokenizers and the nickname registries.
- `CrudeMarkov` models `presswork/text/markov/_crude_markov.py`, the crude n-gram builder and generator. It is imperative: the dictionary is built in place and the generator is a counter-driven loop.
- `CrudeText` models `presswork/text/_crude_markov.py`, the older version that works on raw text and has no size check. `presswork/text_makers/_crude.py` is a line-for-line copy of that file, so `CrudeText` models it as well.
- `CrudeTextMaker` models `presswork/text_maker/_crude.py`, with its string key `""` and its flat `make_text`. `Basic` models `presswork/text_maker/_basic.py`.
- `MarkovDb` and `MarkovGeneration` model the probability database and sentence generation of `presswork/text/markov/thirdparty/_pymarkovchain.py`, which the other forks share.
- `PyMarkovChain` models the class `PyMarkovChainForked` of that file.
- Three modules model the NLTK forks, using `PhraseEnd` for the shared phrase-end clean-up:
  - `PyMarkovChainFork` models `presswork/text/_pymarkovchain_fork.py`;
  - `TextMakerPyMarkovChainFork` models `presswork/text_maker/_pymarkovchain_fork.py`;
  - `Presswork` models `presswork/presswork.py`.
- `TextMakers` models `presswork/text/text_makers.py`: `rejoin`, the two text makers and `create_text_maker`.
- `PyStr` holds Python 2's `unicode` methods (`split`, `splitlines`, `join`, `strip`, `replace`, slicing), with `unicode`'s whitespace and line-break sets. All text is taken to be `unicode`. `PyValues` holds the Python values that the containers and `iter_flatten` inspect. `Wrappers` holds `Option` and `Result`, whose errors name the Python exceptions.

Where the source changes state, the model is imperative:

- Each text-maker object is a class whose field (`db` or `model`) is updated by its methods.
- Each database-building or generation loop is a method with a `while` loop.
- Each such method is proved against a specification function, such as `MarkovDb.Trained`, `CrudeMarkov.Chain`, `CrudeMarkov.Generate` or `MarkovGeneration.GenerateSentence`.
- The source's promises are proved as lemmas about these functions.

Python 2 dictionary order is arbitrary:

- A probability map is a sequence of (word, weight) pairs. Every lemma about walks and sentences holds for whatever pairs the map holds, in the order the model gives them.
- `keys()[0]` and the iteration over `model.keys()` are a choice or an enumeration passed in as a parameter.

## Model

| member | source | states |
|---|---|---|
| PyValues.Chars | presswork/utils.py:17-22 | iterating over a string visits its one-character strings in order |
| PyValues.Strs | presswork/utils.py:17-22 | a list of plain strings as values, element for element |
| Utils.Leaves | presswork/utils.py:17-22 | every element of the flattened result is a leaf (a string or a non-iterable) |
| Utils.IterFlatten | presswork/utils.py:4-22 | a top-level string raises ValueError, a non-iterable raises TypeError, and any other iterable flattens to leaves only |
| Utils.LeavesAppend | presswork/utils.py:17-22 | flattening distributes over concatenation, so leaves come out left to right |
| Utils.LeavesOfFlat | presswork/utils.py:17-22 | a list that holds only leaves flattens to itself |
| Utils.IterFlattenIdempotent | presswork/utils.py:4-22 | flattening an already flattened result gives the same result |
| Utils.FlattenSentences | presswork/utils.py:7-8 | a list of word lists flattens to all the words in order, as in the doctest |
| Utils.StrsAppend | presswork/utils.py:17-22 | the values of concatenated word lists are the concatenated values |
| SentencesAndWords.CrudeSplitSentences | presswork/text/sentences_and_words.py:6-17 | no line it returns contains a line break |
| SentencesAndWords.CrudeSplitWords | presswork/text/sentences_and_words.py:20-27 | every word it returns is non-empty and free of whitespace |
| SentencesAndWords.SentencesRoundTrip | presswork/text/sentences_and_words.py:6-17 | lines without breaks, each followed by a newline, split back into exactly those lines, so a trailing newline adds no empty line |
| SentencesAndWords.WordsRoundTrip | presswork/text/sentences_and_words.py:20-27 | non-empty spaceless words joined by single spaces split back into the same words |
| SentencesAndWords.SplitSentencesExample | presswork/text/sentences_and_words.py:11-14 | three copies of "foo\nbar\n" split into six lines, as in the doctest |
| Sanitize.RemoveControlCharacters | presswork/sanitize.py:5-8 | a character is in the result exactly when it is in the input and is not a code point in 0-31 or 127-159 |
| Sanitize.RemoveControlCharactersIdempotent | presswork/sanitize.py:36 | removing control characters twice gives the same as once |
| Sanitize.RemoveOneControl | presswork/sanitize.py:18-21 | a control character (the null byte of the doctest) between ordinary text is dropped and the text around it is kept in order |
| TemplateFilters.ReplaceCharAppend | presswork/flask_app/template_filters.py:23 | replacing a character distributes over concatenation |
| TemplateFilters.ConvertsEachBreak | presswork/flask_app/template_filters.py:22-23 | normalising newlines and then replacing "\n" by "<br/>" turns each "\r\n", "\r" or "\n" into one "<br/>" |
| TemplateFilters.NewlinesToBrConvertsEachBreak | presswork/flask_app/template_filters.py:6-23 | `newlines_to_br` agrees with the reference reading: each line break, "\r\n" matched first, becomes exactly one "<br/>", other characters unchanged |
| TemplateFilters.NewlinesToBrExamples | presswork/flask_app/template_filters.py:11-16 | "\n", "\r" and "\r\n" each become "<br/>", as in the doctests |
| TemplateFilters.TabsToNbspRemovesTabs | presswork/flask_app/template_filters.py:26-35 | no tab is left, and text without tabs is unchanged |
| TemplateFilters.NoTabInNbsp | presswork/flask_app/template_filters.py:35 | the repeated "&nbsp;" holds no tab |
| TemplateFilters.TabsToNbspLeadingTab | presswork/flask_app/template_filters.py:29-31 | a leading tab becomes `indent_size` copies of "&nbsp;" in front of the rest |
| TemplateFilters.TabsToNbspDefault | presswork/flask_app/template_filters.py:24 | by default a tab becomes four "&nbsp;" |
| TemplateFilters.NoBreaksUnchanged | presswork/flask_app/template_filters.py:17-23 | text without "\r" or "\n" passes through unchanged |
| PyStr.SplitTokens | presswork/text/sentences_and_words.py:27 | every token of `split()` is non-empty and holds no whitespace |
| PyStr.SplitJoinRoundTrip | presswork/text/sentences_and_words.py:20-27 | `split()` after a single-space join gives back non-empty spaceless words |
| PyStr.SplitLinesNoBreaks | presswork/text/sentences_and_words.py:17 | no line of `splitlines()` holds a line break |
| PyStr.SplitLinesRoundTrip | presswork/text/sentences_and_words.py:6-17 | lines each followed by "\n" split back into the same lines |
| PyStr.StripEnds | presswork/presswork.py:186-194 | `strip()` leaves no whitespace at either end and is the identity on text that has none there |
| PyStr.SplitStrip | presswork/text_maker/_basic.py:60-62 | stripping does not change the words `split()` finds |
| PyStr.ReplaceOneChar | presswork/flask_app/template_filters.py:23 | a one-character `replace` is character-by-character substitution |
| PyStr.ReplaceCharRemoves | presswork/flask_app/template_filters.py:35 | replacing a character by text without it removes every occurrence, and absent characters leave the text unchanged |
| PyStr.RepeatLength | presswork/flask_app/template_filters.py:35 | `s * n` has length n times that of s, and is empty for n <= 0 |
| PyStr.RemoveWhereAppend | presswork/sanitize.py:36 | deleting a character class distributes over concatenation |
| PyStr.ReplaceAbsent | presswork/text/clean.py:229-235 | a pattern that does not occur leaves the text unchanged |
| PyStr.SplitAllSpace | presswork/text/grammar/tokenizers.py:100 | whitespace-only text has no words |
| PyStr.SplitAppend | presswork/text/sentences_and_words.py:27 | text cut at a whitespace boundary splits into the words of each side |
| RandomSource.RandIntOf | presswork/text/grammar/joiners.py:201-210 | `randint(a, b)` lies in [a, b] |
| RandomSource.ChoiceIndex | presswork/text/markov/_crude_markov.py:110-120 | `choice` over n > 0 items picks an index below n |
| RandomSource.Random.Next | presswork/text/grammar/joiners.py:243-258 | `random()` returns the next value of the stream and advances the generator by one |
| RandomSource.Random.RandInt | presswork/text/grammar/joiners.py:201-210 | `randint(a, b)` consumes exactly one value of the stream |
| Clean.RemoveControlCharacters | presswork/text/clean.py:148-192 | without `keep_newlines`, a character survives exactly when it is not in 0-31 or 127-159; with it, exactly when it is not such a character other than "\n" |
| Clean.KeepNewlinesKeepsOnlyLineFeed | presswork/text/clean.py:149-186 | with `keep_newlines=True` "\n" survives iff present and "\r" never does (the exclusion tuple names "\n" twice); without it "\n" is removed |
| Clean.SimplifyQuotesRemovesCurlyQuotes | presswork/text/clean.py:212-235 | no curly quote is left after `simplify_quotes` |
| Clean.SimplifyQuotesUnchanged | presswork/text/clean.py:229-235 | text holding neither "``", "''" nor a curly quote is unchanged |
| Clean.ScanKeeps | presswork/text/clean.py:126-145 | the left-to-right scan from any position keeps exactly the characters that are not floating punctuation |
| Clean.FloatingJudgedOnOriginal | presswork/text/clean.py:126-145 | a character is deleted exactly when it is one of the listed punctuation characters with whitespace on both sides in the original text |
| Clean.OtherCharactersKept | presswork/text/clean.py:126 | characters outside the listed punctuation (whitespace, "-", "/") are always kept |
| Clean.RunCleaners | presswork/text/clean.py:88-91 | the loop applies the functions in order, each to the previous output |
| Clean.ApplyAllAppend | presswork/text/clean.py:88-91 | running two chains one after the other is running their concatenation |
| Clean.NewCleanInputString | presswork/text/clean.py:67-86 | an input that is already clean keeps its data; raw text goes through the given cleaners, or the defaults (`unicode_dammit`, then control characters removed keeping newlines) when none are given |
| Clean.DefaultCleaningRemovesControls | presswork/text/clean.py:70-73 | the default cleaning leaves no control character other than "\n", whatever `unicode_dammit` returns |
| Clean.Proofread | presswork/text/clean.py:114-123 | by default `simplify_quotes` then `remove_floating_punctuation`; otherwise the given functions in order |
| Clean.KeptFromSubset | presswork/text/clean.py:145 | removing floating punctuation never adds a character |
| Clean.DefaultProofreadingHasNoCurlyQuotes | presswork/text/clean.py:114-123 | the default proofreading leaves no curly quote |
| Containers.UserListData | presswork/text/grammar/containers.py:37-38 | copying into a `UserList` fails with TypeError exactly for a non-iterable |
| Containers.NewSentencesAsWordLists | presswork/text/grammar/containers.py:37-53 | a list is rejected with ValueError exactly when it is non-empty and its first element is string-like; a non-empty string is rejected |
| Containers.NewWordList | presswork/text/grammar/containers.py:78-86 | a list is rejected with ValueError exactly when it is non-empty and its first element is not string-like |
| Containers.Ensure | presswork/text/grammar/containers.py:41-48 | an existing `SentencesAsWordLists` is returned unchanged; anything else is wrapped and checked |
| Containers.EnsureIdempotent | presswork/text/grammar/containers.py:30-34 | ensuring twice is ensuring once |
| Containers.UnwrapItemsEqual | presswork/text/grammar/containers.py:55-62 | unwrapping the items, on either branch of the `try`, gives items equal to the wrapped ones |
| Containers.UnwrapEachEqual | presswork/text/grammar/containers.py:60 | unwrapping each item keeps it equal |
| Containers.UnwrapEqualsWrapped | presswork/text/grammar/containers.py:55-91 | `unwrap()` returns a value equal to the wrapper it came from |
| Containers.SentencesOfWordsAccepted | presswork/text/grammar/containers.py:24-29 | a list of lists of strings is accepted and the wrapper equals it |
| Containers.FlatListRejected | presswork/text/grammar/containers.py:22-23 | a flat, non-empty list of strings is refused with ValueError |
| Tokenizers.Tokenize | presswork/text/grammar/tokenizers.py:57-80 | one word list per sentence string; ValueError exactly when the word tokenizer is unset and there is a sentence |
| Tokenizers.CreateSentenceTokenizer | presswork/text/grammar/tokenizers.py:203-213 | succeeds exactly for "nltk", "just_whitespace" and "markovify", otherwise KeyError; the tokenizer it builds has a word tokenizer |
| Tokenizers.WhitespaceTokenizerWords | presswork/text/grammar/tokenizers.py:94-123 | the whitespace pair gives one sentence per line, each the line's `split()`, with non-empty whitespace-free words |
| Tokenizers.WhitespaceTokenizerRoundTrip | presswork/text/grammar/tokenizers.py:94-123 | sentences of spaceless words written one per line tokenize back into the same sentences |
| Tokenizers.JoinEach | presswork/text/grammar/tokenizers.py:61 | each sentence joined by single spaces, one for one |
| Tokenizers.JoinNoLineBreak | presswork/text/grammar/tokenizers.py:123 | a space-joined line of spaceless words holds no line break |
| Tokenizers.WhitespaceTokenizerEdgeCases | presswork/text/grammar/tokenizers.py:57-123 | "" tokenizes to [] and a whitespace-only line to [[]] |
| Tokenizers.MissingWordTokenizer | presswork/text/grammar/tokenizers.py:72-80 | without a word tokenizer, tokenizing fails exactly when there is a sentence |
| Joiners.PlainJoiner | presswork/text/grammar/joiners.py:28-121 | the base joiner returns its own separators from both hooks, drops empty words and does not detokenize |
| Joiners.NltkJoiner | presswork/text/grammar/joiners.py:124-166 | the NLTK joiner keeps the fixed separators but passes each sentence through the detokenizer and re-splits it |
| Joiners.RandomIndentJoiner | presswork/text/grammar/joiners.py:169-210 | the random indent joiner always holds a generator, and its indent unit is the word separator twice |
| Joiners.RandomEnjambmentJoiner | presswork/text/grammar/joiners.py:213-244 | the enjambment joiner breaks with chance 0.2 and 1, 1 or 2 sentence separators |
| Joiners.CreateJoiner | presswork/text/grammar/joiners.py:264-275 | succeeds exactly for "just_whitespace", "nltk", "random_indent" and "random_enjamb", otherwise KeyError; only "just_whitespace" skips the detokenizer |
| Joiners.BetweenSentencesWith | presswork/text/grammar/joiners.py:101-210 | the sentence hook returns what `BetweenSentences` says and advances the generator by the draws it makes |
| Joiners.BetweenWordsWith | presswork/text/grammar/joiners.py:96-258 | the word hook returns what `BetweenWords` says and advances the generator by the draws it makes |
| Joiners.JoinRestWith | presswork/text/grammar/joiners.py:90 | each further word is preceded by one call of the word hook, in order |
| Joiners.JoinRestValuesWith | presswork/text/grammar/joiners.py:90 | each further word of any kind is preceded by one call of the word hook, in order, and a word that is not a string is a TypeError |
| Joiners.JoinInitValuesWith | presswork/text/grammar.py:299-302 | the older loop: each word but the last is followed by one call of the word hook, in order, and a word that is not a string is a TypeError |
| Joiners.JoinWordsWith | presswork/text/grammar/joiners.py:84-94 | `_join_word_seq` of any Python value agrees with `JoinWordsValue`, with the generator advanced accordingly |
| Joiners.JoinLaterValuesWith | presswork/text/grammar/joiners.py:73-76 | each further sentence is preceded by one call of the sentence hook, and a joined sentence that is not a string is a TypeError |
| Joiners.JoinWith | presswork/text/grammar/joiners.py:42-82 | `join` of any Python value agrees with `Join`, with the generator advanced accordingly |
| Joiners.WeaveConstant | presswork/text/grammar/joiners.py:73-76 | interleaving parts with one fixed gap is `gap.join` |
| Joiners.Gaps | presswork/text/grammar/joiners.py:73-76 | one sentence gap for each sentence after the first |
| Joiners.Parts | presswork/text/grammar/joiners.py:73-76 | one joined string per sentence |
| Joiners.JoinRestSteady | presswork/text/grammar/joiners.py:90 | with a word hook that returns the separator, the words are `separator.join`ed and nothing is drawn |
| Joiners.JoinWordsSteady | presswork/text/grammar/joiners.py:84-94 | with a steady word hook, a sentence is its (filtered) words joined by the word separator |
| Joiners.GapsShift | presswork/text/grammar/joiners.py:73-76 | the first gap is drawn first and the rest follow from the next draw |
| Joiners.PartsShift | presswork/text/grammar/joiners.py:73-76 | the parts of a list of sentences are the first sentence's part followed by the rest's |
| Joiners.JoinMoreSteady | presswork/text/grammar/joiners.py:73-76 | the further sentences are woven with one drawn gap each; the random indent joiners draw once per gap, the others never |
| Joiners.JoinSentencesOfParts | presswork/text/grammar/joiners.py:71-82 | `_join_sentences` is the first sentence followed by the rest, stripped |
| Joiners.SteadyJoinSentences | presswork/text/grammar/joiners.py:58-82 | plain, NLTK and random indent joiners: the sentences woven with `len - 1` sentence gaps and stripped, drawing once per gap exactly for the random ones |
| Joiners.SeparatorsJoinSentences | presswork/text/grammar/joiners.py:22-82 | the fixed-separator joiners give `sentence_separator.join` of the sentences, each `word_separator.join`ed, stripped only at the ends, with no draws |
| Joiners.RandomIndentGaps | presswork/text/grammar/joiners.py:201-210 | each gap between sentences is the sentence separator followed by 0 to 8 indent units |
| Joiners.IndentIsSpace | presswork/text/grammar/joiners.py:201-207 | an indent built from a whitespace separator is whitespace |
| Joiners.SentenceGapIsSpace | presswork/text/grammar/joiners.py:101-210 | with whitespace separators every sentence gap is non-empty whitespace |
| Joiners.WordGapIsSpace | presswork/text/grammar/joiners.py:96-258 | with whitespace separators every word gap is non-empty whitespace |
| Joiners.NonEmptyIdempotent | presswork/text/grammar/joiners.py:87 | `filter(None, ...)` twice is once |
| Joiners.NonEmptyAppend | presswork/text/grammar/joiners.py:87 | filtering distributes over concatenation |
| Joiners.SplitGapWord | presswork/text/grammar/joiners.py:90 | a whitespace gap and a spaceless word add just that word to the words of the text |
| Joiners.SplitAfterGap | presswork/text/grammar/joiners.py:73-76 | a whitespace gap keeps the words on either side apart |
| Joiners.NonEmptyMembers | presswork/text/grammar/joiners.py:87 | filtering keeps exactly the non-empty words |
| Joiners.NonEmptySpaceFree | presswork/text/grammar/joiners.py:87 | filtering keeps words spaceless |
| Joiners.JoinRestStep | presswork/text/grammar/joiners.py:90 | one step of the word loop: the hook's text then the next word |
| Joiners.JoinRestSplit | presswork/text/grammar/joiners.py:90 | with whitespace gaps the words of the result are the text's words followed by the non-empty words |
| Joiners.JoinWordsSplit | presswork/text/grammar/joiners.py:84-94 | a sentence joined without the detokenizer has just its non-empty words |
| Joiners.JoinMoreSplit | presswork/text/grammar/joiners.py:73-76 | the further sentences add exactly their non-empty words |
| Joiners.JoinOnlyChangesWhitespace | presswork/text/grammar/joiners.py:58-94 | without the detokenizer, and with whitespace gaps, the words of the output are the input's non-empty words in order: a joiner only changes whitespace |
| Joiners.WhitespaceOfParts | presswork/text/grammar/joiners.py:71-82 | stripping the joined text keeps its words |
| Joiners.JoinRestTotal | presswork/text/grammar/joiners.py:90-258 | the word loop never fails when the word hook can draw |
| Joiners.JoinMoreTotal | presswork/text/grammar/joiners.py:73-76 | the sentence loop never fails when both hooks can draw |
| Joiners.JoinSentencesTotal | presswork/text/grammar/joiners.py:58-82 | a joiner with a generator, or with fixed hooks, joins every list of sentences |
| Joiners.GeneratorlessIndentFails | presswork/text/grammar/joiners.py:206 | a random indent joiner without a generator fails with AttributeError exactly when there is a second sentence to indent |
| Joiners.JoinRejectsFlatInput | presswork/text/grammar/joiners.py:42-56 | a bare string and a flat list of strings are rejected with ValueError before any draw |
| Joiners.EmptyInputsJoinToEmpty | presswork/text/grammar/joiners.py:51-82 | None, [], [[]] and [[""]] join to "" without drawing |
| Joiners.ListsOf | presswork/text/grammar/joiners.py:42-56 | the Python list of word lists, element for element |
| Joiners.StrsOfStrs | presswork/text/grammar/joiners.py:42-56 | a list of strings reads back as those words |
| Joiners.TruthiesOfStrs | presswork/text/grammar/joiners.py:87 | `filter(None, ...)` of plain strings keeps exactly the non-empty ones |
| Joiners.RestValuesOfStrs | presswork/text/grammar/joiners.py:90 | the word loop over plain strings is the word loop over their texts |
| Joiners.InitThenLast | presswork/text/grammar.py:299-302 | the older loop, each word followed by a gap and then the last word, gives the same text and draws as the first word followed by gap and word |
| Joiners.WordsValueOfList | presswork/text/grammar/joiners.py:84-94 | a list of plain strings is joined exactly as its words are, success and error alike |
| Joiners.FilteredWordsOfList | presswork/text/grammar/joiners.py:87-94 | for the filtering joiners, a list of plain strings is joined exactly as its words are |
| Joiners.OlderWordsOfList | presswork/text/grammar.py:299-306 | for the older joiners, a list of plain strings is joined exactly as its words are |
| Joiners.LaterValuesOfLists | presswork/text/grammar/joiners.py:73-76 | the further sentences, as lists of plain strings, are joined exactly as their rows are |
| Joiners.JoinOfLists | presswork/text/grammar/joiners.py:42-82 | a non-empty list of word lists passes the check and is joined as its rows are |
| Joiners.StringAsSecondSentenceRejected | presswork/text/grammar/joiners.py:71-76 | once the first sentence is joined, a string as the second sentence raises ValueError, since `sentences[1:]` is checked again, and no sentence gap is drawn |
| Joiners.TruthiesAppend | presswork/text/grammar/joiners.py:87 | `filter(None, ...)` distributes over concatenation |
| Joiners.TruthiesIdempotent | presswork/text/grammar/joiners.py:87 | `filter(None, ...)` twice is once |
| Joiners.FilteredRowsDropFalsyWords | presswork/text/grammar/joiners.py:87-94 | a filtering joiner joins a row exactly as it joins the row's truthy values: None, 0 and "" are dropped before any word must be a string |
| Joiners.OneSentence | presswork/text/grammar/joiners.py:77-82 | a lone sentence is joined and stripped; if its join is not a string it has no `strip` (AttributeError) |
| Joiners.TruthiesOfOne | presswork/text/grammar/joiners.py:87 | a single value survives `filter(None, ...)` exactly when it is truthy |
| Joiners.FilteredLoneWord | presswork/text/grammar/joiners.py:87-92 | a filtering joiner's row with one truthy value joins to that value as it is, whatever it is |
| Joiners.EmptyRows | presswork/text/grammar/joiners.py:84-94 | the sentences `[]` and `[""]` join to "" without drawing |
| Joiners.FilteredNoneWords | presswork/text/grammar/joiners.py:84-94 | `[[None, "a"]]` joins to "a" and `[[None]]` to "" |
| Joiners.OlderNoneWords | presswork/text/grammar.py:296-306 | without the filter, `[[None, "a"]]` raises TypeError and `[[None]]` AttributeError |
| Joiners.JoinMoreStep | presswork/text/grammar/joiners.py:73-76 | one step of the sentence loop: the hook's text, then the next joined sentence |
| Joiners.NonEmptyKeeps | presswork/text/grammar/joiners.py:87 | filtering a list without empty words keeps it |
| Joiners.RepeatSpacesKept | presswork/text/grammar/joiners.py:253 | `lstrip("\n")` keeps an indent made of spaces |
| Joiners.DefaultEnjambmentGap | presswork/text/grammar/joiners.py:243-258 | between two words: a draw below 0.2 gives one or two line breaks and an indent (three draws), otherwise the word separator (one draw) |
| Grammar.OlderJoiner | presswork/text/grammar.py:237-333 | the older base and whitespace joiners use their separators and keep every word, "" included |
| Grammar.OlderMosesJoiner | presswork/text/grammar.py:336-371 | `JoinerMoses` detokenizes, re-splits and keeps the fixed separators |
| Grammar.OlderRandomIndentJoiner | presswork/text/grammar.py:374-412 | the older random indent joiner subclasses the plain `Joiner` (no detokenizer), has a generator only when one is passed, and indents by the word separator twice |
| Grammar.OlderRandomEnjambmentJoiner | presswork/text/grammar.py:415-458 | the older enjambment joiner breaks with chance 0.33 and 2, 2, 2 or 4 separators, with no fallback to the word separator |
| Grammar.CreateJoiner | presswork/text/grammar.py:583-592 | succeeds exactly for "just_whitespace", "moses", "random_indent" and "random_enjamb", otherwise KeyError; the classes get their defaults, so the random ones hold no generator |
| Grammar.OlderJoinKeepsEmptyWords | presswork/text/grammar.py:296-306 | the older `_join_words` is `word_separator.join` of all words, "" included, while the newer one filters empty words first |
| Grammar.CreatedRandomJoinersFail | presswork/text/grammar.py:401-412 | the random joiners `create_joiner` builds fail with AttributeError once there is a second sentence to indent |
| Grammar.OlderEnjambmentGap | presswork/text/grammar.py:447-458 | between two words: a draw below 0.33 gives two or four line breaks and an indent (three draws), otherwise the word separator (one draw) |
| Grammar.RejoinLists | presswork/text/grammar.py:563 | `rejoin` of a list of word lists is the words joined by spaces, the sentences by "\n", stripped |
| Grammar.TokenizeWhitespace | presswork/text/grammar.py:133-166 | one word list per line, each the line's `split()` |
| Grammar.TokenizeWhitespaceAgrees | presswork/text/grammar.py:133-166 | the older whitespace tokenizer gives exactly what the newer one gives |
| Grammar.CreateSentenceTokenizer | presswork/text/grammar.py:570-580 | succeeds exactly for "nltk", "just_whitespace" and "markovify", otherwise KeyError |
| Grammar.MatchLength | presswork/text/grammar.py:461 | a match at the head is 2 (whitespace and closing punctuation), 4 or 5 (whitespace, "}~]" and whitespace or the end), or none |
| Grammar.NonSpaceAppend | presswork/text/grammar.py:492 | the non-whitespace characters of a concatenation are those of each side |
| Grammar.ProofreaderDeletesOnlySpace | presswork/text/grammar.py:461-492 | the substitution only deletes whitespace: every other character is kept in order and nothing is added |
| Grammar.TidyUnchanged | presswork/text/grammar.py:461 | text with no whitespace before closing punctuation or "}" is unchanged |
| Grammar.SpaceBeforeClosingPunctuation | presswork/text/grammar.py:461 | one whitespace character before any of the class's punctuation is removed, whatever follows |
| Grammar.TwoSpacesBeforeClosingPunctuation | presswork/text/grammar.py:461-472 | of two whitespace characters before closing punctuation only the one next to it goes |
| Grammar.BracketsAtEnd | presswork/text/grammar.py:461 | whitespace then "}~]" at the end of the text loses the whitespace |
| Grammar.SpaceBeforeBrackets | presswork/text/grammar.py:461 | whitespace, "}~]" and whitespace lose the first whitespace; the second belongs to the match and is kept |
| Grammar.BracketsBeforeOther | presswork/text/grammar.py:461 | whitespace, "}~]" and a non-whitespace character: the whitespace stays |
| Grammar.Format | presswork/text/grammar.py:475-486 | without format functions the one substitution is applied; otherwise each function in turn |
| CrudeMarkov.NgramForSentenceStart | presswork/text/markov/_crude_markov.py:152-155 | n START words, each "" |
| CrudeMarkov.Observations | presswork/text/markov/_crude_markov.py:56-64 | a sentence of L words gives L + 1 observations, each under an n-gram of exactly n words, so the IndexError branch never runs |
| CrudeMarkov.ChainSnoc | presswork/text/markov/_crude_markov.py:54-70 | one more input sentence is one more sentence's observations recorded |
| CrudeMarkov.CrudeMarkovChain | presswork/text/markov/_crude_markov.py:39-78 | the nested loops build exactly `Chain`, the observations of every sentence recorded in input order from `{}` |
| CrudeMarkov.RecordSnoc | presswork/text/markov/_crude_markov.py:58-70 | one more observation recorded is one more `Observe` step |
| CrudeMarkov.RecordSentence | presswork/text/markov/_crude_markov.py:58-70 | the inner loop records one sentence's observations in order |
| CrudeMarkov.RecordAppends | presswork/text/markov/_crude_markov.py:66-70 | recording only appends: each list grows by the followers of its n-gram in order, and a key appears only with a follower |
| CrudeMarkov.ChainHoldsFollowers | presswork/text/markov/_crude_markov.py:54-70 | each list is exactly the words that follow its n-gram in the input, in input order; an n-gram is a key iff something follows it |
| CrudeMarkov.ChainAppendsSentence | presswork/text/markov/_crude_markov.py:58-70 | adding a sentence of L words appends its L + 1 observations, in order, to the lists of their n-grams and replaces no list |
| CrudeMarkov.RecordKeyLengths | presswork/text/markov/_crude_markov.py:59 | recording n-word observations keeps every key n words long |
| CrudeMarkov.ChainKeyLengths | presswork/text/markov/_crude_markov.py:56-64 | every key of the model has exactly `ngram_size` words |
| CrudeMarkov.EmptyInputEmptyModel | presswork/text/markov/_crude_markov.py:49-52 | an empty list of sentences gives `{}` |
| CrudeMarkov.RecordOne | presswork/text/markov/_crude_markov.py:66-70 | recording one observation is one `Observe` step |
| CrudeMarkov.Ends | presswork/text/markov/_crude_markov.py:36 | k END words |
| CrudeMarkov.ChainOfEmptySentences | presswork/text/markov/_crude_markov.py:54-70 | sentences without words give at most the all-START key, mapped to one END per sentence, which `is_empty_model` counts as empty |
| CrudeMarkov.StartFollowersOfSentence | presswork/text/markov/_crude_markov.py:56-64 | in a sentence without empty words only the first observation has the all-START n-gram, and it is followed by the first word |
| CrudeMarkov.FollowersInFirstOnly | presswork/text/markov/_crude_markov.py:58-70 | an n-gram seen only at the first observation is followed by that one word |
| CrudeMarkov.FirstWords | presswork/text/markov/_crude_markov.py:56 | the first word of each sentence, END for an empty one, in input order |
| CrudeMarkov.StartKeyHoldsFirstWords | presswork/text/markov/_crude_markov.py:56-70 | the all-START key maps to each sentence's first word (END for an empty sentence) in input order |
| CrudeMarkov.StartFollowers | presswork/text/markov/_crude_markov.py:56-70 | the followers of the all-START n-gram are the first words |
| CrudeMarkov.Advance | presswork/text/markov/_crude_markov.py:117 | dropping the oldest word and adding the new one keeps the context's length |
| CrudeMarkov.Pick | presswork/text/markov/_crude_markov.py:113-120 | a picked word comes from the current n-gram's list; a draw is consumed exactly when the n-gram is a key (KeyError draws nothing, an empty list draws and picks nothing) |
| CrudeMarkov.Extend | presswork/text/markov/_crude_markov.py:116 | the sentence grows by at most one word |
| CrudeMarkov.MakeSentences | presswork/text/markov/_crude_markov.py:99-136 | the `while` loop over the counters, context and sentence yields exactly what `Generate` describes and leaves the stream at its position |
| CrudeMarkov.IterMakeSentences | presswork/text/markov/_crude_markov.py:81-136 | an empty model yields one `[]` without a draw; a first key of the wrong length raises ValueError before any sentence; otherwise the loop runs |
| CrudeMarkov.RunCount | presswork/text/markov/_crude_markov.py:106-134 | exactly the remaining number of sentences is yielded |
| CrudeMarkov.RunLengths | presswork/text/markov/_crude_markov.py:122-134 | every sentence has at most `max_loops_per_sentence` + 1 words |
| CrudeMarkov.ExtendFromModel | presswork/text/markov/_crude_markov.py:110-117 | a picked word keeps the sentence drawn from the model, its first word from the all-START list |
| CrudeMarkov.RunDrawsFromModel | presswork/text/markov/_crude_markov.py:106-134 | every sentence starts with a word of the all-START list and holds only words of the model's lists |
| CrudeMarkov.EmptySentences | presswork/text/markov/_crude_markov.py:131 | k empty sentences |
| CrudeMarkov.RunWithoutStart | presswork/text/markov/_crude_markov.py:110-131 | when the all-START n-gram is not a key, every sentence is an immediate dead end: that many empty sentences, and no draw |
| CrudeMarkov.GenerateShape | presswork/text/markov/_crude_markov.py:99-136 | exactly `count` sentences (none for a count below one), each of at most `max_loops_per_sentence` + 1 words, starting from the START list and made of words of the model |
| CrudeMarkov.FollowersInFromInput | presswork/text/markov/_crude_markov.py:56-64 | every follower of one sentence is one of its words or END |
| CrudeMarkov.FollowersFromInput | presswork/text/markov/_crude_markov.py:54-70 | every follower in the input is an input word or END |
| CrudeMarkov.ChainWordsFromInput | presswork/text/markov/_crude_markov.py:54-70 | every word in the model's lists is an input word or END, so generated words are too |
| CrudeText.SentencesOf | presswork/text/_crude_markov.py:80-81 | one word list per line of the text, each the word splitter's result |
| CrudeText.CrudeMarkovChain | presswork/text/_crude_markov.py:54-109 | the sentence splitter argument is ignored and lines are always used; empty text gives `{}`; otherwise the model is `Chain` of the lines' words |
| CrudeText.IterMakeSentences | presswork/text/_crude_markov.py:123-172 | an empty model yields one `[]`; any other model runs the loop with no size check |
| CrudeText.MismatchedSizeYieldsEmptySentences | presswork/text/_crude_markov.py:144-168 | generating with another n-gram size than the model's gives `count` empty sentences and draws nothing |
| CrudeText.BlankTextIsEmptyModel | presswork/text/_crude_markov.py:112-120 | text whose lines hold no words gives a model with at most one key, which counts as empty |
| CrudeTextMaker.StartString | presswork/text_maker/_crude.py:67-69 | `START_SYMBOL * ngram_size` is the string "" for every size, not a tuple |
| CrudeTextMaker.WithStartObserve | presswork/text_maker/_crude.py:93-96 | recording an occurrence changes only its n-gram's list, and the string key never collides with it |
| CrudeTextMaker.RecordSentence | presswork/text_maker/_crude.py:77-96 | the inner loop records one line's occurrences under tuple keys, next to the string key |
| CrudeTextMaker.CrudeMarkovChain | presswork/text_maker/_crude.py:53-101 | the model is the string key "" mapped to `[]` plus the crude model of the text's lines under tuple keys, with no early return for empty text |
| CrudeTextMaker.MakeText | presswork/text_maker/_crude.py:104-125 | the loop runs `words_to_generate` + 1 rounds and returns `join_with.join` of the words `Words` collects |
| CrudeTextMaker.WordsCount | presswork/text_maker/_crude.py:109-121 | each round appends at most one word |
| CrudeTextMaker.StringKeysUnused | presswork/text_maker/_crude.py:110-118 | only tuple keys are looked up: the list under a string key never affects what is generated |
| CrudeTextMaker.NoTupleKeysNoWords | presswork/text_maker/_crude.py:114-121 | a model with no tuple key generates no word and draws nothing |
| CrudeTextMaker.EmptyTextMakesEmptyText | presswork/text_maker/_crude.py:67-71 | empty text gives `{"": []}`, from which the text made is empty |
| CrudeTextMaker.WordsFromModel | presswork/text_maker/_crude.py:115-117 | every generated word was picked from a list under a tuple key |
| CrudeTextMaker.MadeWordsFromInput | presswork/text_maker/_crude.py:53-125 | text made from a model of some text holds at most `words_to_generate` + 1 words, each a word of that text's lines or END |
| Basic.Chars | presswork/text_maker/_basic.py:26-27 | one one-character string per character |
| Basic.CharObservations | presswork/text_maker/_basic.py:26-37 | one observation per position i with i + n inside the text: the n characters at i and the character at i + n |
| Basic.AddFollower | presswork/text_maker/_basic.py:34-37 | a new n-gram gets a one-element list, a known one has the follower appended |
| Basic.MarkovChainOfChars | presswork/text_maker/_basic.py:23-40 | the loop stops at the first follower past the end and records each earlier occurrence in order |
| Basic.CharChainHolds | presswork/text_maker/_basic.py:26-37 | a text of m characters gives max(0, m - n) observations; each list holds the characters following its n-gram in text order; a key has a follower and n characters |
| Basic.WordObservations | presswork/text_maker/_basic.py:49-63 | one observation per word position with a word n places further on, each under n words |
| Basic.WordObservationAt | presswork/text_maker/_basic.py:51-63 | the observation at i is the n words at i and the stripped word at i + n |
| Basic.RecordLine | presswork/text_maker/_basic.py:50-63 | the inner loop records one line's observations in order |
| Basic.MarkovChainOfSentencesAndWords | presswork/text_maker/_basic.py:43-66 | each line split into words, its loop stopping at the first follower past the end, the lines recorded in order |
| Basic.WordChainSnoc | presswork/text_maker/_basic.py:48-63 | one more line is that line's observations recorded |
| Basic.ShortLineAddsNothing | presswork/text_maker/_basic.py:55-58 | a line of at most n words adds nothing to the model |
| Basic.WordFollowersUnstripped | presswork/text_maker/_basic.py:61-63 | `strip()` changes no follower, since each is a word `split()` produced |
| Basic.RecordKeepsWords | presswork/text_maker/_basic.py:60-63 | recording whole words keeps every follower a whole word |
| Basic.WordChainShape | presswork/text_maker/_basic.py:43-66 | every key is n words long and every follower is non-empty and free of whitespace |
| Basic.MakeText | presswork/text_maker/_basic.py:69-87 | the loop prints (here: returns) exactly the text `MadeText` describes, or raises its error |
| Basic.EmptyModelRaises | presswork/text_maker/_basic.py:73-76 | with an empty model the first iteration raises IndexError from `random.choice` outside the `try`; zero iterations print "" |
| Basic.IterationStep | presswork/text_maker/_basic.py:73-85 | an iteration fails only when it must choose from no keys; it either resets, leaving the output as after the chosen key's tokens, or appends one follower of the chosen n-gram and shifts it into the context; it resets exactly when the n-gram is no key or has no followers |
| Basic.IterationsFromModel | presswork/text_maker/_basic.py:69-87 | every printed token is a token of some key or a follower in the model |
| MarkovDb.OrderObservations | presswork/text/markov/thirdparty/_pymarkovchain.py:118-126 | for one order: each `order` words with a word after them and that word, in position order, then the end key and the end token |
| MarkovDb.Scaled | presswork/text/markov/thirdparty/_pymarkovchain.py:135-136 | every weight divided by the sum, candidates unchanged |
| MarkovDb.CountOrder | presswork/text/markov/thirdparty/_pymarkovchain.py:119-126 | the loop over positions and the end-key increment count exactly the order's observations |
| MarkovDb.CountStep | presswork/text/markov/thirdparty/_pymarkovchain.py:123 | one more increment is one `Increment` step |
| MarkovDb.CountAppend | presswork/text/markov/thirdparty/_pymarkovchain.py:112-126 | counting two runs of increments is counting their concatenation |
| MarkovDb.CountSentence | presswork/text/markov/thirdparty/_pymarkovchain.py:116-126 | a non-empty sentence counts its first word after the special tuple, then every order from 1 to the window |
| MarkovDb.CountNextOrder | presswork/text/markov/thirdparty/_pymarkovchain.py:118 | the orders loop adds one order at a time |
| MarkovDb.NormalizeWeights | presswork/text/markov/thirdparty/_pymarkovchain.py:131-136 | the sum loop and the in-place division give the key's weights divided by their sum, or leave them when it is zero |
| MarkovDb.NormalizeDb | presswork/text/markov/thirdparty/_pymarkovchain.py:130-136 | every key is normalised, in whatever order the dictionary is visited |
| MarkovDb.Train | presswork/text/markov/thirdparty/_pymarkovchain.py:106-136 | `database_init` sets the initial 0.0, counts every non-empty sentence and normalises |
| MarkovDb.AddOneWeight | presswork/text/markov/thirdparty/_pymarkovchain.py:46-55 | `+= 1` on a missing entry stores 1.0 + 1, on a present one adds 1, and touches no other candidate |
| MarkovDb.SetWeightWeight | presswork/text/markov/thirdparty/_pymarkovchain.py:111 | assigning a weight sets that candidate only |
| MarkovDb.CountWeights | presswork/text/markov/thirdparty/_pymarkovchain.py:40-55 | after counting, an entry counted c times holds its old weight (or the 1.0 default) plus c; every other entry is unchanged |
| MarkovDb.FirstIncrementStoresTwo | presswork/text/markov/thirdparty/_pymarkovchain.py:46-55 | the first count of a new entry stores 2.0 |
| MarkovDb.InitializedWeights | presswork/text/markov/thirdparty/_pymarkovchain.py:111 | initialisation sets the end token after the special tuple to 0.0 and changes nothing else |
| MarkovDb.FreshCounts | presswork/text/markov/thirdparty/_pymarkovchain.py:106-126 | from a fresh database the end token after the special tuple weighs its count, every other counted entry 1.0 plus its count, and nothing else has a weight |
| MarkovDb.EndKeyCases | presswork/text/markov/thirdparty/_pymarkovchain.py:126 | the end key is the last `order` words while the sentence is that long; for a longer order the negative slice start wraps once, giving the last `order - len` words; from twice the length on it is the whole sentence |
| MarkovDb.SumScaled | presswork/text/markov/thirdparty/_pymarkovchain.py:135-136 | dividing each weight divides the sum |
| MarkovDb.WeightOfScaled | presswork/text/markov/thirdparty/_pymarkovchain.py:135-136 | dividing leaves the candidates and divides each weight |
| MarkovDb.NormalizeWeightsSumToOne | presswork/text/markov/thirdparty/_pymarkovchain.py:130-136 | a key with a non-zero sum holds count/sum for each candidate and sums to 1; a zero-sum key is unchanged; no key or candidate is added or removed |
| MarkovDb.AddOneCandidates | presswork/text/markov/thirdparty/_pymarkovchain.py:123 | an increment adds just its word to the candidates |
| MarkovDb.SetWeightCandidates | presswork/text/markov/thirdparty/_pymarkovchain.py:111 | an assignment adds just its word to the candidates |
| MarkovDb.CountCandidates | presswork/text/markov/thirdparty/_pymarkovchain.py:112-126 | a candidate after counting was one before, or was counted |
| MarkovDb.OrdersCountInput | presswork/text/markov/thirdparty/_pymarkovchain.py:118-126 | every word counted for a sentence is one of its words or the end token |
| MarkovDb.ObservationsCountInput | presswork/text/markov/thirdparty/_pymarkovchain.py:112-126 | every word counted is an input word or the end token |
| MarkovDb.TrainedCandidatesFromInput | presswork/text/markov/thirdparty/_pymarkovchain.py:106-136 | a database trained from nothing holds after every key only input words and the end token |
| MarkovGeneration.SumFront | presswork/text/markov/thirdparty/_pymarkovchain.py:130-134 | the sum of a key's weights is its first weight plus the sum of the rest |
| MarkovGeneration.RunningFront | presswork/text/markov/thirdparty/_pymarkovchain.py:185-194 | the running weight up to a candidate is the first weight plus the running weight of the rest |
| MarkovGeneration.WalkReaches | presswork/text/markov/thirdparty/_pymarkovchain.py:185-194 | the walk returns the first candidate whose running weight reaches the sample, so each candidate is picked for a stretch of samples as wide as its weight |
| MarkovGeneration.WalkFallsBack | presswork/text/markov/thirdparty/_pymarkovchain.py:185-196 | when no running weight reaches the sample the walk returns the word of greatest weight seen |
| MarkovGeneration.MaxWordWithoutLarger | presswork/text/markov/thirdparty/_pymarkovchain.py:183-196 | with no weight above the starting 0.0 the fallback is the end token |
| MarkovGeneration.MaxWordIsFirstMaximum | presswork/text/markov/thirdparty/_pymarkovchain.py:188-190 | the fallback is the first candidate of greatest weight; a later tie does not replace it |
| MarkovGeneration.WalkWithinSum | presswork/text/markov/thirdparty/_pymarkovchain.py:185-194 | a sample no greater than the sum of the weights always picks a candidate |
| MarkovGeneration.WalkIsCandidate | presswork/text/markov/thirdparty/_pymarkovchain.py:183-196 | the walk returns one of the key's candidates or the fallback word |
| MarkovGeneration.NormalizedKeyPicksCandidate | presswork/text/markov/thirdparty/_pymarkovchain.py:180-196 | after normalisation a key with non-zero counts picks one of its candidates for every draw in [0, 1) |
| MarkovGeneration.PickCandidate | presswork/text/markov/thirdparty/_pymarkovchain.py:183-196 | the loop over candidates returns the walk's word for the sample |
| MarkovGeneration.Backoff | presswork/text/markov/thirdparty/_pymarkovchain.py:172-179 | a found context is a key of the database |
| MarkovGeneration.BackoffLongestSuffix | presswork/text/markov/thirdparty/_pymarkovchain.py:172-179 | the back-off finds the longest suffix of the words that is a key; when it finds none, no non-empty suffix is a key |
| MarkovGeneration.NextWord | presswork/text/markov/thirdparty/_pymarkovchain.py:171-196 | `_next_word` is the back-off, then one draw walked over the key's weights; the special tuple is looked up directly |
| MarkovGeneration.TouchCandidates | presswork/text/markov/thirdparty/_pymarkovchain.py:40-43 | inserting an empty entry for the special tuple adds no candidate |
| MarkovGeneration.NextWordIsCandidate | presswork/text/markov/thirdparty/_pymarkovchain.py:171-196 | the next word is the end token or a candidate of some key; only the special tuple changes the database; a draw is used exactly when a key is found |
| MarkovGeneration.ContinuesBack | presswork/text/markov/thirdparty/_pymarkovchain.py:166-168 | a word appended before a continuation keeps it a continuation |
| MarkovGeneration.GrownNotSpecial | presswork/text/markov/thirdparty/_pymarkovchain.py:173 | words ending in something other than the end token are not the special tuple |
| MarkovGeneration.AccumulateUnfold | presswork/text/markov/thirdparty/_pymarkovchain.py:166-168 | one turn of the loop appends the word and asks `_next_word` about the longer sentence |
| MarkovGeneration.AccumulateShape | presswork/text/markov/thirdparty/_pymarkovchain.py:164-169 | the loop appends only non-empty candidates, leaves the database alone and uses no draw twice |
| MarkovGeneration.GenerateSentenceShape | presswork/text/markov/thirdparty/_pymarkovchain.py:162-169 | a generated sentence is the seed followed by non-empty candidates of the database; only a special seed can change the database |
| MarkovGeneration.GenerateSentenceList | presswork/text/markov/thirdparty/_pymarkovchain.py:162-169 | the method's loop computes the sentence the specification function defines |
| MarkovGeneration.PrependNothing | presswork/text/markov/thirdparty/_pymarkovchain.py:156-160 | prepending no sentences changes nothing |
| MarkovGeneration.PrependTwice | presswork/text/markov/thirdparty/_pymarkovchain.py:156-160 | prepending twice is prepending the concatenation |
| MarkovGeneration.JoinAfterSpecial | presswork/text/_pymarkovchain_fork.py:239-242 | joining a sentence that starts with the end token leaves one leading space, or nothing when it is alone |
| MarkovGeneration.StrippedText | presswork/text_maker/_pymarkovchain_fork.py:226 | the stripped text has no whitespace at either end |
| MarkovGeneration.StripAfterSpecial | presswork/text_maker/_pymarkovchain_fork.py:218-226 | stripping removes the space the leading end token leaves |
| MarkovGeneration.SentencesList | presswork/text/markov/thirdparty/_pymarkovchain.py:153-160 | `number` sentences from the seed, none when it is not positive |
| MarkovGeneration.SentencesFromShape | presswork/text/markov/thirdparty/_pymarkovchain.py:156-158 | a batch has exactly the requested number of sentences, each a continuation of the seed |
| MarkovGeneration.SeedTokens | presswork/text/_pymarkovchain_fork.py:202-211 | a seed is accepted exactly when it has words and its last word alone is a key; a blank seed raises `IndexError`, an unknown last word `EndOfChainException` |
| MarkovGeneration.AcceptedSeedDraws | presswork/text/_pymarkovchain_fork.py:202-211 | a blank seed is refused; an accepted seed always finds a key, so its first next word is drawn |
| MarkovGeneration.LastWordFound | presswork/text/_pymarkovchain_fork.py:208 | when the last word alone is a key the back-off finds a key |
| MarkovGeneration.TrainedSentenceFromInput | presswork/text/markov/thirdparty/_pymarkovchain.py:106-196 | every word generated after the seed from a database trained from nothing is a word of the training sentences |
| PhraseEnd.MatchLength | presswork/text_maker/_pymarkovchain_fork.py:216 | a match of the pattern is absent, a whitespace character and a punctuation mark at the end, or those two and a following whitespace character |
| PhraseEnd.PhraseEndKeepsText | presswork/text_maker/_pymarkovchain_fork.py:211-216 | the clean-up only deletes ASCII whitespace: every other character stays, in order, and nothing is added |
| PhraseEnd.SkippedSpaceKeepsText | presswork/text_maker/_pymarkovchain_fork.py:216 | dropping the leading whitespace of a match keeps the other characters it consumed |
| PhraseEnd.PhraseEndKeepsEnds | presswork/text_maker/_pymarkovchain_fork.py:211-216 | the last character always stays, and the first one unless it is whitespace |
| PhraseEnd.PhraseEndUnchanged | presswork/text_maker/_pymarkovchain_fork.py:211-216 | text with no whitespace before a phrase-ending character is returned unchanged |
| PhraseEnd.PhraseEndAppend | presswork/text_maker/_pymarkovchain_fork.py:216 | after text ending in a plain character the clean-up works on each part separately |
| PhraseEnd.SpaceBeforePhraseEndRemoved | presswork/text_maker/_pymarkovchain_fork.py:213-214 | " . " becomes ". " after a word, and so on for the other marks; a final " ." becomes "." |
| PhraseEnd.SpacedPhraseEnd | presswork/text_maker/_pymarkovchain_fork.py:213-214 | a leading " p " becomes "p " |
| PhraseEnd.FinalPhraseEnd | presswork/text_maker/_pymarkovchain_fork.py:213-214 | " p" alone becomes "p" |
| PhraseEnd.PostProcessExample | tests/text_maker/test_pymarkovchain_fork.py:73-76 | the test's example string is cleaned up to the test's expected string |
| PhraseEnd.ExampleHead | tests/text_maker/test_pymarkovchain_fork.py:74-76 | the first two pieces of the example are cleaned up as expected once the rest is |
| PhraseEnd.PhraseEndPiece | presswork/text_maker/_pymarkovchain_fork.py:216 | text left alone, then " p " cut to "p ", then the clean-up of the rest |
| PyMarkovChain.PyMarkovChainForked.constructor | presswork/text/markov/thirdparty/_pymarkovchain.py:73-85 | a new model has the given window (2 by default) and an empty database |
| PyMarkovChain.PyMarkovChainForked.IncrementWords | presswork/text/markov/thirdparty/_pymarkovchain.py:103-104 | counts the first word after the special tuple; an empty list inserts the special tuple and raises `IndexError` |
| PyMarkovChain.PyMarkovChainForked.DatabaseInit | presswork/text/markov/thirdparty/_pymarkovchain.py:106-136 | the database becomes the old one with the sentences counted and every key normalised |
| PyMarkovChain.PyMarkovChainForked.MakeSentencesList | presswork/text/markov/thirdparty/_pymarkovchain.py:153-160 | `number` sentences from the special tuple; the database and draw position are those after generation |
| PyMarkovChain.SentencesListShape | presswork/text/markov/thirdparty/_pymarkovchain.py:153-169 | exactly max(number, 0) lists, each starting with the end token and continuing with non-empty candidates |
| PyMarkovChain.UntrainedMakesEmptySentences | presswork/text/markov/thirdparty/_pymarkovchain.py:106-111 | an untrained database's only word after the special tuple is the end token |
| PyMarkovChainFork.WordLists | presswork/text/_pymarkovchain_fork.py:128-129 | one word list per sentence |
| PyMarkovChainFork.SpecialSentenceKeepsLeadingSpace | presswork/text/_pymarkovchain_fork.py:239-242 | a sentence from the special tuple keeps its leading space unless its first word opens with phrase punctuation |
| PyMarkovChainFork.SentenceStrings | presswork/text/_pymarkovchain_fork.py:183-185 | one string per sentence |
| PyMarkovChainFork.PyMarkovChainWithNLTK.constructor | presswork/text/_pymarkovchain_fork.py:83-104 | empty database, the given window, the given word tokenizer or else Treebank, and punkt |
| PyMarkovChainFork.PyMarkovChainWithNLTK.IncrementWords | presswork/text/_pymarkovchain_fork.py:118-119 | counts the first word after the special tuple; an empty list inserts the special tuple and raises `IndexError` |
| PyMarkovChainFork.PyMarkovChainWithNLTK.DatabaseInit | presswork/text/_pymarkovchain_fork.py:121-153 | punkt sentences, each tokenized, counted into the database and normalised |
| PyMarkovChainFork.PyMarkovChainWithNLTK.MakeSentencesList | presswork/text/_pymarkovchain_fork.py:168-178 | a non-empty seed is checked and split (its errors returned, nothing changed); an empty one means the special tuple; then `number` sentences |
| PyMarkovChainFork.PyMarkovChainWithNLTK.MakeSentences | presswork/text/_pymarkovchain_fork.py:181-182 | the decorated method is an exception instance: every call raises `TypeError` |
| PyMarkovChainFork.PyMarkovChainWithNLTK.MakeSentencesUndecorated | presswork/text/_pymarkovchain_fork.py:182-187 | `number` sentence strings joined by two spaces and post-processed |
| PyMarkovChainFork.PyMarkovChainWithNLTK.MakeSentence | presswork/text/_pymarkovchain_fork.py:190-193 | one sentence from the special tuple, joined by spaces (not stripped) and post-processed |
| PyMarkovChainFork.PyMarkovChainWithNLTK.MakeSentenceWithSeed | presswork/text/_pymarkovchain_fork.py:196-200 | a refused seed returns its error and changes nothing; an accepted one grows the sentence from the seed words |
| PyMarkovChainFork.UndecoratedBodyReturnsEmpty | presswork/text/_pymarkovchain_fork.py:181-187 | on a fresh model the undecorated body would succeed and return the empty string, so the `TypeError` is the decorator's doing |
| PyMarkovChainFork.UndecoratedSentencesShape | presswork/text/_pymarkovchain_fork.py:182-187 | the undecorated body joins `number` strings, each from a continuation of the special tuple |
| TextMakerPyMarkovChainFork.WordTokenize | presswork/text_maker/_pymarkovchain_fork.py:83-93 | both branches of the punctuation test yield the token, so the result is the Treebank tokens unchanged |
| TextMakerPyMarkovChainFork.TokenizeLines | presswork/text_maker/_pymarkovchain_fork.py:142-143 | each sentence's tokens, in order |
| TextMakerPyMarkovChainFork.SentenceStrings | presswork/text_maker/_pymarkovchain_fork.py:184-185 | one string per sentence |
| TextMakerPyMarkovChainFork.SentenceStringShape | presswork/text_maker/_pymarkovchain_fork.py:189-192 | a sentence string has no whitespace at either end and keeps every non-whitespace character of the joined words, in order |
| TextMakerPyMarkovChainFork.SpecialSentenceString | presswork/text_maker/_pymarkovchain_fork.py:218-226 | the leading space of a sentence from the special tuple is stripped |
| TextMakerPyMarkovChainFork.PyMarkovChainWithNLTK.constructor | presswork/text_maker/_pymarkovchain_fork.py:108-126 | empty database, the given window, `WordTokenizer` and punkt |
| TextMakerPyMarkovChainFork.PyMarkovChainWithNLTK.IncrementWords | presswork/text_maker/_pymarkovchain_fork.py:132-133 | counts the first word after the special tuple; an empty list inserts the special tuple and raises `IndexError` |
| TextMakerPyMarkovChainFork.PyMarkovChainWithNLTK.DatabaseInit | presswork/text_maker/_pymarkovchain_fork.py:135-167 | punkt sentences, tokenized by `WordTokenizer`, counted into the database and normalised |
| TextMakerPyMarkovChainFork.PyMarkovChainWithNLTK.MakeSentences | presswork/text_maker/_pymarkovchain_fork.py:182-187 | `number` sentence strings, joined by two spaces and post-processed |
| TextMakerPyMarkovChainFork.PyMarkovChainWithNLTK.MakeSentence | presswork/text_maker/_pymarkovchain_fork.py:189-192 | one sentence from the special tuple, joined, stripped and post-processed |
| TextMakerPyMarkovChainFork.PyMarkovChainWithNLTK.MakeSentenceWithSeed | presswork/text_maker/_pymarkovchain_fork.py:194-204 | a blank seed raises `IndexError` and an unknown last word `EndOfChainException`, changing nothing; otherwise the sentence grows from the seed words |
| Presswork.SentenceStrings | presswork/presswork.py:161-163 | one string per sentence |
| Presswork.SentenceWordsRecovered | presswork/presswork.py:186-194 | splitting a sentence string gives back the generated words |
| Presswork.SplitJoinedStrings | presswork/presswork.py:164 | strings joined by whitespace split into the words of each, in order |
| Presswork.SentencesWordsRecovered | presswork/presswork.py:160-164 | `make_sentences`'s output splits back into exactly the generated words, sentence after sentence |
| Presswork.StringsWords | presswork/presswork.py:160-164 | the words of the sentence strings are the generated words |
| Presswork.SpaceBeforePunctuationKept | presswork/presswork.py:166-173 | without the phrase-end clean-up "w ." keeps its space, which the `presswork/text_maker/` version removes |
| Presswork.StrippedWithSpace | presswork/presswork.py:194 | the joined, stripped sentence of a word and a mark has a space before the mark |
| Presswork.PhraseEndWithoutSpace | presswork/text_maker/_pymarkovchain_fork.py:206-216 | the clean-up removes that space |
| Presswork.MarkovChainTextMaker.constructor | presswork/presswork.py:85-103 | empty database, the given window, `WordTokenizer` and punkt |
| Presswork.MarkovChainTextMaker.IncrementWords | presswork/presswork.py:109-110 | counts the first word after the special tuple; an empty list inserts the special tuple and raises `IndexError` |
| Presswork.MarkovChainTextMaker.DatabaseInit | presswork/presswork.py:112-145 | punkt sentences, tokenized, counted into the database and normalised |
| Presswork.MarkovChainTextMaker.MakeSentences | presswork/presswork.py:160-164 | `number` sentence strings joined by two spaces, with no clean-up |
| Presswork.MarkovChainTextMaker.MakeSentence | presswork/presswork.py:166-173 | one sentence from the special tuple, joined and stripped |
| Presswork.MarkovChainTextMaker.MakeSentenceWithSeed | presswork/presswork.py:175-184 | a blank seed raises `IndexError` and an unknown last word `EndOfChainException`, changing nothing; otherwise the sentence grows from the seed words |
| TextMakers.JoinedSentences | presswork/text/text_makers.py:65 | one joined string per sentence |
| TextMakers.RejoinSnoc | presswork/text/text_makers.py:64-65 | no sentences rejoin to ""; one more sentence adds the separator and its joined words, with nothing stripped and an empty sentence kept as an empty line |
| TextMakers.JoinSnoc | presswork/text/text_makers.py:65 | joining one more string adds the separator and it |
| TextMakers.JoinedWordsOneLine | presswork/text/text_makers.py:65 | words without whitespace joined by spaces hold no line break |
| TextMakers.LineEndOfLastLine | presswork/text/text_makers.py:64 | a string without a line break is one whole line |
| TextMakers.SplitLinesOfJoin | presswork/text/text_makers.py:64 | lines joined by "\n" split back into themselves when none holds a line break and the last is not empty |
| TextMakers.RejoinRoundTrip | presswork/text/text_makers.py:64-65 | with the default separators, splitting the text into lines and each line into words gives back the sentences (non-empty, whitespace-free words, last sentence not empty) |
| TextMakers.TextMakerCrude.constructor | presswork/text/text_makers.py:135-139 | any arguments are ignored: the state size is the default and the model is `{}` |
| TextMakers.TextMakerCrude.InputText | presswork/text/text_makers.py:141-142 | a fresh model of the text's lines replaces the old one |
| TextMakers.TextMakerCrude.MakeSentences | presswork/text/text_makers.py:144-147 | an empty model gives `[[]]` and no draw; otherwise exactly the generator's sentences |
| TextMakers.TextMakerPyMarkovChain.constructor | presswork/text/text_makers.py:109-115 | any arguments are ignored: the state size is the default and a fresh strategy has that window and an empty database |
| TextMakers.TextMakerPyMarkovChain.InputText | presswork/text/text_makers.py:117-122 | the strategy's `database_init` adds the text to the database it holds |
| TextMakers.TextMakerPyMarkovChain.MakeSentences | presswork/text/text_makers.py:124-125 | `count` sentence lists from the special tuple, the database and draw position those after generation |
| TextMakers.ClassByName | presswork/text/text_makers.py:152-162 | a name selects the crude class exactly for its class name, "crude" and "default", and the PyMarkovChain class exactly for its class name and "pymc" |
| TextMakers.ChosenClass | presswork/text/text_makers.py:179-187 | an unknown name or a non-class value fails: an unhashable value with `TypeError` in the lookup, anything else with `ValueError` for not being callable |
| TextMakers.CreateTextMaker | presswork/text/text_makers.py:165-194 | the chosen class with the default state size (the argument is ignored), loaded with the sanitized text exactly when it is not empty; a lookup failure is returned as such |
| TextMakers.FreshCrudeMakesNothing | presswork/text/text_makers.py:17-20 | a crude maker with no text makes `[[]]`, which rejoins to "" |
| TextMakers.RunKeepsSentence | presswork/text/_crude_markov.py:140-168 | the first sentence yielded begins with the sentence already started |
| TextMakers.FirstSentenceStart | presswork/text/_crude_markov.py:144-150 | when the all-START list holds one word, the first sentence begins with it |
| TextMakers.JoinStartsWithFirst | presswork/text/text_makers.py:65 | the joined text begins with its first string |
| TextMakers.OneLineSentences | presswork/text/_crude_markov.py:42-51 | a text without line breaks is one sentence, its words |
| TextMakers.OneSentenceModel | presswork/text/_crude_markov.py:83-104 | the model of one sentence maps the all-START n-gram to its first word alone and also has a START-and-first-word key |
| TextMakers.TwoKeys | presswork/text/_crude_markov.py:112-120 | a model with two keys is not empty |
| TextMakers.OneLineStartsWithFirstWord | presswork/text/text_makers.py:11-20 | a crude maker given one line of words makes, rejoined, a sentence that starts with the line's first word |
| TextMakers.RejoinOneStartsWith | presswork/text/text_makers.py:64-65 | one sentence rejoined starts with its first word |
| TextMakers.FollowersInPrefix | presswork/text/_crude_markov.py:101-104 | the followers recorded from a prefix of the observations come first in the list |
| TextMakers.ExampleWords | presswork/text/text_makers.py:11 | the example text "Foo is better than bar" (its five words joined by single spaces) is one line, and splitting it gives back the five words |
| TextMakers.CrudeExampleStartsWithFoo | presswork/text/text_makers.py:14-20 | the module's example: the crude maker given "Foo is better than bar" makes a sentence that rejoins to something starting with "Foo" |

## Left out

- NLTK, markovify and bs4 (the punkt, Treebank and Tweet tokenizers, `MosesDetokenizer`, `markovify.splitters`, `UnicodeDammit`) are foreign libraries. They appear as opaque function parameters, and nothing is claimed about what they compute.
- Pickle persistence (`database_dump`, `database_clear`, `with_persistence`, the database-file reads in the constructors) is file I/O. Every constructor is modelled without a database file.
- The CLI, the Flask apps and jinja `Markup` are interfaces outside the text pipeline.
- Logging, `print` and `pprint` are left out. `Basic.MakeText` returns the text that `make_text` prints.
- IEEE float rounding is not modelled: weights and draws are exact reals. The walk's max-weight fallback is modelled as written, but no claim depends on rounding.
- The distributions of `random` are left out. Draws are inputs, and no probability is claimed.
- `grammar.py`'s default generator, the float `random.random()`, is modelled only as far as it fails (`Grammar.CreatedRandomJoinersFail`). The random joiners are otherwise proved with an injected generator.
- The generation loop of the PyMarkovChain forks has no bound in the source. It is modelled with a `fuel` parameter, and running out of fuel gives the error `Diverged`, which the source never raises. Sentences that would need more words than the fuel allows are not modelled.
- The order of a probability map is the order of first insertion (`MarkovDb.Touch`, `MarkovDb.Trained`), while Python 2 iterates dictionaries in hash order. The model therefore makes no claim about which word a particular draw yields; only claims that hold for every choice of word are made.
- Joiners.Join: adding a string to a `UserList` (a `WordList` or `SentencesAsWordLists` given as a word, or as the only word of a row) builds a new wrapper, which is checked again, instead of raising TypeError. The model reports TypeError wherever a word or joined sentence that is not a string meets a string; the source then raises TypeError, AttributeError or ValueError, depending on where the wrapper ends up.
- Joiners.Join: the Moses joiners are taken to raise TypeError whenever a row holds something other than a string, since the detokenizer joins its tokens with spaces. What `MosesDetokenizer` does with other values is not modelled.
- Byte `str` inputs are not modelled. Every string is taken as `unicode` text, such as what `CleanInputString` produces. For a Python 2 byte `str`, `split()` and `strip()` treat only the six ASCII whitespace characters as whitespace, and `splitlines()` breaks only at "\n" and "\r". The model instead uses `unicode`'s sets, which add form feed, "\x1c"-"\x1f", "\x85", "\xa0" and the other Unicode spaces and breaks. For example, `crude_split_sentences("a\x0cb")` on a byte `str` gives one line, while the model splits it at the form feed.
- n-gram sizes, windows and state sizes are natural numbers. Negative sizes, which Python slicing would accept, are not modelled.
- `SanitizedString` is not defined in `presswork/sanitize.py`. `TextMakers.CreateTextMaker` therefore takes the sanitizer as a parameter.
- TextMakers.ChosenClass: covers only a class argument that is one of the two text makers, and any other value is taken not to be callable. A callable argument that is some other class or function is not modelled.
- The literal doctests of `Joiner.join` (`presswork/text/grammar/joiners.py:22-25`) and of `StringProofreader` (`presswork/text/grammar.py:469-472`) are not proved as literals, because their concrete strings are too costly for the verifier. The general lemmas (`Joiners.SeparatorsJoinSentences`, `Grammar.SpaceBeforeClosingPunctuation`, `Grammar.TwoSpacesBeforeClosingPunctuation`) state the rules they illustrate.
- `tests/test_presswork.py:55-82` needs the Zen text's concrete model and is left out. The model proves that every generated word is a word of the training text (`MarkovGeneration.TrainedSentenceFromInput`). It does not prove that every sentence contains "better than".
- Basic.MakeText: when it raises, the position in the draws is not stated, because the exception leaves the module-level generator however far it got.
- `make_text` in `presswork/text_maker/_basic.py` has a `model=None` default that fails at once. The `SOURCE` sample text (`_basic.py`) and `EXAMPLE_SOURCE` (`presswork/text_maker/_crude.py`, `presswork/text/_crude_markov.py`) are default arguments. All of these are left out: the model and the text are always given.
- The pystr helper lemmas (`PyStr.SkipSpaces`, `PyStr.WordLength` and the other lemmas behind `split`, `splitlines` and `strip`) model Python builtins, not presswork, and have no rows.

## Findings

| source | as written | input that shows it | evidently intended | confidence | as-written member | corrected member |
|---|---|---|---|---|---|---|
| presswork/text/_pymarkovchain_fork.py:181-187 | `@DeprecationWarning` decorates `make_sentences`. The method is replaced by an exception instance, so calling it raises `TypeError`. The neighbouring `#@DeprecationWarning` lines are commented out. | `PyMarkovChainWithNLTK().make_sentences(1)` on a fresh model: the body would return `""`, but the call raises `TypeError` | the body runs: `number` sentence strings joined by two spaces and post-processed | not executed | PyMarkovChainFork.PyMarkovChainWithNLTK.MakeSentences | PyMarkovChainFork.PyMarkovChainWithNLTK.MakeSentencesUndecorated |
