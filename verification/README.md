# A verified model of the Artistic Style core

The repository vendors the Artistic Style formatter in `external/astyle`. This
project models its hand-written stack machines and string algorithms in Dafny
and proves what they are for. Code that changes fields step by step is a class
whose methods are proved equal to a function on states; the laws are proved
about those functions, for every input or every run.

`dafny verify dfyconfig.toml` checks everything.

| files | what they model |
|---|---|
| `HeaderStacks`, `Beautifier`, `Companions`, `StatementTrees`, `InlineStatements`, `StatementIndents` | the two-stack machine that decides which `if` an `else` belongs to and how far each line is indented |
| `Preprocessor`, `SourceBeautifier` | the clones of the beautifier at `#if`, `#elif`, `#else` and `#endif` |
| `Continuation`, `Brackets`, `ContinuationObject` | the stack of continuation columns and the stack of its saved sizes |
| `EncodingBits`, `Encoding`, `EncodingProofs`, `EncodingTheorems`, `EncodingBlocks`, `EncodingObject` | UTF-8 and UTF-16 conversion and the two length predictors |
| `Wildcards` | glob matching with one backtrack point |
| `LineEnds`, `StreamLines`, `StreamIterator` | line-end conversion, reading lines and looking ahead |
| `LineSplitting`, `LineSplittingProofs`, `LineSplittingMarks`, `LineSplitter` | the ten split points of a growing line |
| `LineIndents`, `Switches`, `SwitchLayout`, `Enhancer` | indenting in three tab modes, and the switch stack that unindents braced cases |
| `HeaderTables` | early-exit search in sorted keyword tables |
| `NumberFormat` | digit grouping |
| `Basics` | shared vocabulary |

Main results, hardest first:

* Every program of simple statements, `if`, `else`, `else if`, `for`, `while`,
  `switch` with labels, `do`/`while`, `try`/`catch` and blocks, with braces
  attached or broken, blocks on one line, cuddled companions and bodies on the
  line of their header, is indented line by line by its nesting depth
  (`StatementIndents.ProgramIndents`). A block on one line keeps the stacks and
  its indentation under an exact condition, which these programs meet
  (`InlineStatements.InlineBlockKeepsIff`).
* The clones made at conditional directives refine a recursive semantics of
  branches on every well-nested text (`Preprocessor.ClonesRefineBranches`), and
  the objects that are copied and moved do what the clones do
  (`SourceBeautifierObject.SourceBeautifier.ProcessFile`, `FormatText`).
* Both converters agree with the standard encodings of section 3 of RFC 3629
  and sections 2.1 and 2.2 of RFC 2781 in both byte orders; the conversion to
  UTF-8 does so if and only if the text is empty or ends below 0x80, because
  the code stops as soon as its input is consumed
  (`EncodingTheorems.ToUtf16IsExact`, `ToUtf8IsExactIffEndsLow`). The calling
  convention that includes the terminator meets this condition on every text.
* Greedy matching with one backtrack point equals the declarative meaning of
  `*` and `?` (`Wildcards.Wildcmp`).
* Every line of a laid-out program is unindented once per enclosing switch
  whose current case opened with a brace (`SwitchLayout.ProgramUnindents`).
* Over whole runs no split point leaves its line, the semicolon, comma and
  parenthesis points keep marking their character and the logical and white
  points their surroundings, no split loses, doubles or moves text, and none cuts
  a name, except possibly beside `or` and `and` (`LineSplittingProofs.RunKeepsText`,
  `RunKeepsMarks`, `LineSplittingMarks.RunKeepsSpace`, `SplitCutsNoName`). From the first character
  or operator that is checked in a block that must stay on its line, or in an
  array outside a statement, until the flag is reset, nothing is split
  (`WholeBlockStarts`, `UnbrokenIsUnlimited`).
* A closing bracket brings the continuation columns back exactly, if and only
  if no block brace stands inside or there were none before
  (`Brackets.BracketRestoresColumns`).

Properties the code does not have, with their exact condition:

* One snapshot per open brace: lost exactly when an `if` follows, on the same
  line, an `else` statement that is already finished (`HeaderStacks.StepIsExact`
  for a token, `LineIsExact` for a line, `ExactCanFail` for a line that does it).
  The inequality holds always. Such a line can cost the lines after it a level:
  `{ if (a) b; else c; if (d) e; }` in a block takes the block's brace away
  (`InlineStatements.OneLineLosesBlock`, `InlineBlockRestoresIff`).
* A block on one line is indented too deep by one level for every header that an
  `else`, `while` or `catch` in it brings back (`InlineStatements.InlineBlockIndent`,
  `LoopedChoice`).
* Converting to UTF-8 in two blocks loses the bits of a last character from 0x80
  up, unless they were 0 or nothing follows (`EncodingBlocks.BlocksJoinIff`).
* A conversion to UTF-8 that does not end below 0x80 loses all but one byte of
  its last character (`EncodingTheorems.ToUtf8IsExactIffEndsLow`).
* Text is lost exactly when the line is broken, not split, while a finished
  line with text still waits (`LineSplittingProofs.PerformAddsText`,
  `RunKeepsText`, and `TextCanBeLost` and `SplitThenBreakLoses` for such runs):
  `breakLine` does not look at `isLineReady`, and a caller may break just after
  a split, as at external/astyle/ASFormatter.cpp:3979-3982.
* The lines read are not the logical lines exactly when a block of alternating
  line-end characters runs from LF to CR (`StreamLines.ReadsLogicalLines`).
* Looking ahead from the very first position is not undone by the reset, if
  there is more than one peek, since position 0 also means "no mark"
  (`StreamLines.ResetComesBackIff`). With assertions on, the source refuses the
  reset of a single peek from there.
* Unindenting gives an indented line back exactly when, in force-tab mode, its
  white space was tabs followed by fewer spaces than a tab is wide
  (`LineIndents.UnindentUndoesIndent`). A line that the beautifier writes is so
  unless spaces are its indent string and they fill a tab, which
  `force-tab-x=8` followed by `indent=spaces=4` reaches, since
  `setSpaceIndentation` leaves force-tab on
  (`LineIndents.BeautifiedLineComesBack`, `BeautifiedLineChanges`).
* With indented cases the switch stack is pushed and never popped
  (`Switches.SwitchGivesBackIff`, `IndentedCasesGrow`).
* The indent has the width of its counts, except when force-tab is combined
  with an indent string of spaces and a tab fits (`LineIndents.IndentWidth`).

Where code and comments disagree the code is followed: a comment in
`utf16ToUtf8` says that the state is retained for the next block, but only
`state` is, not the value of the character under way.

## Model

| member | source | states |
|---|---|---|
| `StatementIndents.ProgramIndents` | external/astyle/ASBeautifier.cpp:2028-2057 | every well-formed program, in every layout of the trees (braces attached or broken, one-line blocks, cuddled companions, one-line else if), has each line indented by the nesting depth of the node it prints, and no header is left at the end |
| `StatementIndents.PrintOk` | external/astyle/ASBeautifier.cpp:3044-3111 | the lines of one statement are indented by its depth wherever it stands, and the stacks afterwards differ from those before only in the snapshot of the current block, which holds the headers of the statement |
| `StatementIndents.PrintAllOk` | external/astyle/ASBeautifier.cpp:3442-3449 | a sequence of statements in a block: each is indented by the depth of the block, and nothing stays pending |
| `StatementIndents.PrintIfOk` | external/astyle/ASBeautifier.cpp:3058-3090 | an `if` with or without `else`, alone or chained as `else if` on one line |
| `StatementIndents.PrintElseOk` | external/astyle/ASBeautifier.cpp:3058-3083 | the `else` part is indented as its `if`, whatever statement stood between |
| `StatementIndents.HandlersOk` | external/astyle/ASBeautifier.cpp:3113-3136 | every `catch` of a `try` is indented as the `try` |
| `StatementIndents.BlockOk` | external/astyle/ASBeautifier.cpp:3009-3011 | a block in braces: its lines one deeper, its closing brace as its opening one, its snapshot gone |
| `StatementIndents.LeadOneLinerOk` | external/astyle/ASBeautifier.cpp:2165-2183 | a block of statements on one line, after its header or on the next line: the header keeps its depth and the block counts as a finished body |
| `StatementIndents.OneLinerOk` | external/astyle/ASBeautifier.cpp:2165-2183 | a block on one line among statements is indented as they are |
| `InlineStatements.InlineBlockRestoresIff` | external/astyle/ASBeautifier.cpp:3058-3090 | a block of any statements on one line gives the stacks back if and only if no `if` in it starts a statement while the last header is the `else` of a finished one |
| `InlineStatements.InlineBlockIndent` | external/astyle/ASBeautifier.cpp:3070-3082 | the line of such a block is indented by its depth and one level for every header that an `else`, `while` or `catch` brings back before a brace closes |
| `InlineStatements.InlineBlockKeepsIff` | external/astyle/ASBeautifier.cpp:3058-3090 | so it keeps stacks and indentation exactly when both conditions hold |
| `InlineStatements.LoopedChoice` | external/astyle/ASBeautifier.cpp:3081-3082 | `{ for (;;) if (a) b; else c; }` fits and gains one level |
| `InlineStatements.OneLineLosesBlock` | external/astyle/ASBeautifier.cpp:3058-3063 | after `{ if (a) b; else c; if (d) e; }` in a block the brace of that block is gone, and its next line is not indented |
| `Companions.ElseBindsToInnermostIf` | external/astyle/ASBeautifier.cpp:3065-3083 | after the end of a statement by `;` or `}`, an `else` replaces everything from the innermost open `if` inwards and brings back what is outside it (section 6.8.4.1 of ISO/IEC 9899:2011); the line is indented by what came back unless a brace closed on it |
| `Companions.ElseWithoutIf` | external/astyle/ASBeautifier.cpp:3084-3088 | with no open `if` the `else` is pushed alone |
| `Companions.WhileClosesInnermostDo` | external/astyle/ASBeautifier.cpp:3092-3112 | a `while` after the body of a `do` belongs to the innermost open `do` |
| `Companions.RestackAt` | external/astyle/ASBeautifier.cpp:3070-3082 | restacking from a snapshot finds the innermost companion and restores what is outside it in its old order |
| `Companions.EndedAt` | external/astyle/ASBeautifier.cpp:3442-3449 | the end of a statement moves its pending headers, innermost first, into the snapshot of its block |
| `HeaderStacks.StepIsSafe` | external/astyle/ASBeautifier.cpp:3009-3010 | every token, in any order, keeps one snapshot more than open braces at least, and no snapshot holds a brace, so there is always a snapshot to write to |
| `HeaderStacks.StepIsExact` | external/astyle/ASBeautifier.cpp:3058-3063 | the number of snapshots stays exactly one more than the open braces if and only if the token is not an `if` that pops a brace as if it were an `else` |
| `HeaderStacks.LineIsExact` | external/astyle/ASBeautifier.cpp:3058-3063 | over any tokens of a line the count stays exact if and only if none of them pops a brace that way; a surplus never goes away |
| `HeaderStacks.ExactCanFail` | external/astyle/ASBeautifier.cpp:3058-3063 | a reachable line on which the exact count fails |
| `HeaderStacks.Parse` | external/astyle/ASBeautifier.cpp:2522-2524 | any sequence of tokens on a line leaves the stacks safe |
| `HeaderStacks.After` | external/astyle/ASBeautifier.cpp:1184-1193 | a whole line, balanced or not, leaves the stacks safe |
| `BeautifierObject.Beautifier.constructor` | external/astyle/ASBeautifier.cpp:298-314 | the stacks start empty, with one snapshot |
| `BeautifierObject.Beautifier.Copy` | external/astyle/ASBeautifier.cpp:94-107 | a clone has copies of both stacks |
| `BeautifierObject.Beautifier.RestackTo` | external/astyle/ASBeautifier.cpp:3070-3082 | the loop that moves snapshot entries back equals the closed form: the part outside the first companion, reversed |
| `BeautifierObject.Beautifier.MoveBack` | external/astyle/ASBeautifier.cpp:3076-3080 | the loop moves the last entries of the snapshot to the header stack, in reverse |
| `BeautifierObject.Beautifier.TakeSnapshot` | external/astyle/ASBeautifier.cpp:3442-3449 | the two loops replace the snapshot by the reversed headers above the last open brace |
| `BeautifierObject.Beautifier.PopBlock` | external/astyle/ASBeautifier.cpp:3401-3428 | everything from the last open brace upwards goes, with its snapshot; nothing if there is none |
| `BeautifierObject.Beautifier.ParseHeader` | external/astyle/ASBeautifier.cpp:3058-3136 | a header recalls its companion and is pushed |
| `BeautifierObject.Beautifier.ParseOpenBrace` | external/astyle/ASBeautifier.cpp:3009-3011 | a block brace opens a snapshot of its own |
| `BeautifierObject.Beautifier.ParseCloseBrace` | external/astyle/ASBeautifier.cpp:3377-3449 | a closing brace ends its block and is the end of a statement |
| `BeautifierObject.Beautifier.ParseCase` | external/astyle/ASBeautifier.cpp:3137-3146 | the first `case` of a line goes back one level, unless the line begins with a brace |
| `BeautifierObject.Beautifier.ParseDefault` | external/astyle/ASBeautifier.cpp:3147-3151 | a `default` goes back one level |
| `BeautifierObject.Beautifier.PushLabel` | external/astyle/ASBeautifier.cpp:3173-3176 | a label is pushed and its colon ends a statement |
| `BeautifierObject.Beautifier.ParseToken` | external/astyle/ASBeautifier.cpp:2522-2524 | one token takes the state where the machine says, and the stacks stay safe |
| `BeautifierObject.Beautifier.ParseCurrentLine` | external/astyle/ASBeautifier.cpp:2522-2524 | the loop over a line is the run of the machine |
| `BeautifierObject.Beautifier.ComputePreliminaryIndentation` | external/astyle/ASBeautifier.cpp:2028-2059 | the count is the depth of the header stack: a brace after its own header adds nothing |
| `BeautifierObject.Beautifier.AdjustParsedLineIndentation` | external/astyle/ASBeautifier.cpp:2159-2206 | the final count of a line, never negative |
| `BeautifierObject.Beautifier.StartLine` | external/astyle/ASBeautifier.cpp:1175-1187 | what belongs to one line is reset |
| `BeautifierObject.Beautifier.BeautifyLine` | external/astyle/ASBeautifier.cpp:1175-1193 | indents one line and moves the stacks past it, as the functions on stacks say |
| `Preprocessor.ClonesRefineBranches` | external/astyle/ASBeautifier.cpp:1965-2022 | on every well-nested text and from any stacks: each later branch is formatted from the state at its `#if`, the state after `#endif` is the one the first branch left, and all four stacks are restored |
| `Preprocessor.LaterBranches` | external/astyle/ASBeautifier.cpp:1977-1993 | `#elif` and `#else` branches start from the state captured at `#if` and touch nothing below the clones of this conditional |
| `Preprocessor.EndifRestores` | external/astyle/ASBeautifier.cpp:1994-2022 | `#endif` unwinds both stacks to their sizes at the matching `#if` |
| `Preprocessor.FileRefines` | external/astyle/ASBeautifier.cpp:1155-1173 | a whole file is printed as the recursive semantics says and leaves no clone |
| `SourceBeautifierObject.SourceBeautifier.constructor` | external/astyle/ASBeautifier.cpp:305-309 | no clones at the start |
| `SourceBeautifierObject.SourceBeautifier.BeautifyCode` | external/astyle/ASBeautifier.cpp:1155-1173 | a line of code goes to the last active clone, and only that object changes |
| `SourceBeautifierObject.SourceBeautifier.OpenConditional` | external/astyle/ASBeautifier.cpp:1969-1976 | a newly allocated copy of the beautifier in charge waits, and both sizes are saved; no object is shared |
| `SourceBeautifierObject.SourceBeautifier.TakeLastBranch` | external/astyle/ASBeautifier.cpp:1977-1985 | `#else` moves the object that waited to the active stack |
| `SourceBeautifierObject.SourceBeautifier.TakeBranch` | external/astyle/ASBeautifier.cpp:1986-1993 | `#elif` puts a newly allocated copy of the waiting clone on the active stack and keeps the original |
| `SourceBeautifierObject.SourceBeautifier.CloseConditional` | external/astyle/ASBeautifier.cpp:1994-2022 | `#endif` pops both stacks to the saved sizes |
| `SourceBeautifierObject.SourceBeautifier.ProcessLine` | external/astyle/ASBeautifier.cpp:1155-1173 | one line of a file, code or directive, on objects that are held or new |
| `SourceBeautifierObject.SourceBeautifier.ProcessFile` | external/astyle/ASBeautifier.cpp:1965-2022 | the object formats any sequence of lines, balanced or not, as the machine of clones does |
| `SourceBeautifierObject.SourceBeautifier.FormatText` | external/astyle/ASBeautifier.cpp:1965-2022 | from a new object, every well-nested text is printed as the recursive semantics says, later branches included |
| `SourceBeautifierObject.PopTo` | external/astyle/ASBeautifier.cpp:2003-2008 | the pop loop truncates to the saved size |
| `Continuation.StepIsValid` | external/astyle/ASBeautifier.cpp:1921-1929 | in every reachable state the size stack is not empty, has 0 at the bottom, rises, and does not exceed the number of columns |
| `Continuation.RegisterIsBounded` | external/astyle/ASBeautifier.cpp:1286-1349 | outside arrays a registered column is within the maximum, or the fallback of two indents, or the column before it; taken from the text it never lies before that one |
| `Continuation.Purge` | external/astyle/ASBeautifier.cpp:2979-2983 | popping until no column is left terminates and leaves a valid size stack |
| `Continuation.Run` | external/astyle/ASBeautifier.cpp:2807-2867 | every token sequence, balanced or not, keeps that invariant |
| `Brackets.BracketRestoresColumns` | external/astyle/ASBeautifier.cpp:2807-2865 | after the closing bracket the columns are exactly those before the opening one, if and only if no block brace stands inside or there were no columns |
| `Brackets.ItemKeeps` | external/astyle/ASBeautifier.cpp:2807-2865 | a bracketed group restores nesting and sizes as well, and outside parentheses also whether a statement continues |
| `Brackets.ItemsKeep` | external/astyle/ASBeautifier.cpp:3302-3305 | names, commas, semicolons, assignments and nested brackets never touch the columns below the enclosing bracket |
| `ContinuationObject.ContinuationIndents.constructor` | external/astyle/ASBeautifier.cpp:316-324 | the stacks at the start, the size stack holding one 0 |
| `ContinuationObject.ContinuationIndents.PopLastContinuationIndent` | external/astyle/ASBeautifier.cpp:1921-1929 | pops to the saved size and keeps the bottom size |
| `ContinuationObject.ContinuationIndents.PurgeAll` | external/astyle/ASBeautifier.cpp:2979-2983 | the purge loop ends, by the invariant |
| `ContinuationObject.ContinuationIndents.RegisterContinuationIndent` | external/astyle/ASBeautifier.cpp:1286-1349 | the column that is registered and the one saved for the closing bracket |
| `ContinuationObject.ContinuationIndents.ParseOpenParen` | external/astyle/ASBeautifier.cpp:2807-2829 | an opening parenthesis saves the size and registers a column |
| `ContinuationObject.ContinuationIndents.ParseCloseParen` | external/astyle/ASBeautifier.cpp:2841-2865 | a closing one pops to the saved size and restores the statement flag |
| `ContinuationObject.ContinuationIndents.ParseOpenBlock` | external/astyle/ASBeautifier.cpp:2975-3002 | a block brace purges all columns and saves depth and flag |
| `ContinuationObject.ContinuationIndents.ParseCloseBrace` | external/astyle/ASBeautifier.cpp:3351-3393 | a closing brace ends an array or a block |
| `ContinuationObject.ContinuationIndents.ParseSeparator` | external/astyle/ASBeautifier.cpp:3302-3337 | `;` and commas pop to the bracket; a comma at the end of a line registers a column |
| `ContinuationObject.ContinuationIndents.StartLine` | external/astyle/ASBeautifier.cpp:2031-2038 | a line starts at the last column |
| `ContinuationObject.ContinuationIndents.Parse` | external/astyle/ASBeautifier.cpp:2522-2524 | one token takes the stacks where the function on states says, and the invariant stays |
| `EncodingTheorems.ToUtf16IsExact` | external/astyle/astyle_main.cpp:3860-3929 | on the UTF-8 of any text, in either byte order, the units written are its UTF-16 |
| `EncodingTheorems.UnitsPredictedExactly` | external/astyle/astyle_main.cpp:3936-3959 | the predicted length is the exact number of units |
| `EncodingTheorems.ToUtf8IsExactIffEndsLow` | external/astyle/astyle_main.cpp:3965-4055 | the bytes written for a text are its UTF-8, and the machine is back in its start state, if and only if the text is empty or ends below 0x80 |
| `EncodingTheorems.BytesPredictedExactly` | external/astyle/astyle_main.cpp:3832-3854 | the predicted length is the exact number of bytes |
| `EncodingTheorems.TerminatedIsExact` | external/astyle/astyle_main.cpp:2989-3008 | with the terminator included every text is converted exactly, and one byte more than predicted is written |
| `EncodingBlocks.BlocksJoinIff` | external/astyle/astyle_main.cpp:3965-3979 | two blocks, the second converted in the retained state, write what both write at once if and only if one is empty, or the last character of the first is below 0x80 or has no bits after its first byte: the value under way is forgotten |
| `EncodingTheorems.Utf8RoundTrip` | external/astyle/astyle_main.cpp:3860-4055 | UTF-8 to UTF-16 in memory and back gives the same bytes, in both byte orders, exactly for texts that end low |
| `EncodingTheorems.Utf16RoundTrip` | external/astyle/astyle_main.cpp:3860-4055 | UTF-16 in memory to UTF-8 and back gives the same memory, in both byte orders, exactly for texts that end low |
| `EncodingTheorems.MemoryRoundTrip` | external/astyle/astyle_main.cpp:3812-3815 | units stored for a byte order are read back in it |
| `EncodingObject.ASEncoding.Utf16Len` | external/astyle/astyle_main.cpp:3819-3825 | the position of the first terminator |
| `EncodingObject.ASEncoding.Utf16LengthFromUtf8` | external/astyle/astyle_main.cpp:3936-3959 | twice the predicted number of units, skipping past a cut last character as the code does |
| `EncodingObject.ASEncoding.Utf8LengthFromUtf16` | external/astyle/astyle_main.cpp:3832-3854 | the prediction over the units that inLen rounds up to |
| `EncodingObject.ASEncoding.Utf8ToUtf16` | external/astyle/astyle_main.cpp:3860-3929 | the buffer holds exactly the units of the state machine, and nothing after them is touched |
| `EncodingObject.ASEncoding.Utf16ToUtf8` | external/astyle/astyle_main.cpp:3965-4055 | the buffer holds exactly the bytes of the state machine, nothing after them is touched, and the state is the one in which the input ran out |
| `EncodingObject.ASEncoding.EncodeBlock` | external/astyle/astyle_main.cpp:3979-4053 | the output loop, which terminates because a step that reads nothing lowers the state |
| `EncodingObject.ASEncoding.NextOutput` | external/astyle/astyle_main.cpp:3981-4051 | one turn of the switch writes the next byte of the machine and leaves exactly the rest |
| `EncodingObject.ASEncoding.ReadValue` | external/astyle/astyle_main.cpp:3989-4015 | reads one unit or a surrogate pair |
| `Wildcards.Wildcmp` | external/astyle/astyle_main.cpp:2781-2837 | the result is true if and only if the data matches the pattern under the declarative meaning of `*` and `?` |
| `Wildcards.BacktrackFrom` | external/astyle/astyle_main.cpp:2801-2836 | the backtracking loop decides whether any retry can succeed, and terminates by pattern left after the last star, retry position, data left |
| `Wildcards.PassStar` | external/astyle/astyle_main.cpp:2803-2811 | at a star the older attempts are given up without changing the answer; a star that ends the pattern settles it |
| `Wildcards.MatchOrRetry` | external/astyle/astyle_main.cpp:2812-2829 | one turn away from a star keeps the answer, by going on with the attempt or by starting the next one |
| `Wildcards.NewStarSuffices` | external/astyle/astyle_main.cpp:2803-2811 | at a new star all older retry points may be forgotten |
| `Wildcards.RetryLater` | external/astyle/astyle_main.cpp:2824-2828 | a mismatch rules out the attempt under way and no other |
| `Wildcards.AtEndOfData` | external/astyle/astyle_main.cpp:2832-2836 | when the data is used up no retry can do better than the attempt under way |
| `Wildcards.OnlyStarsLeft` | external/astyle/astyle_main.cpp:2832-2836 | whether nothing but stars is left |
| `LineEnds.ConvertLineEnds` | external/astyle/astyle_main.cpp:365-446 | the loop writes the logical lines of the text joined by the requested line end |
| `LineEnds.ConversionKeepsLines` | external/astyle/astyle_main.cpp:365-446 | the logical lines, with CRLF, CR and LF each ending one, are kept |
| `LineEnds.ConversionsCollapse` | external/astyle/astyle_main.cpp:365-446 | converting to one line end and then to another is converting to the other; converting twice is converting once |
| `LineEnds.ConversionLeavesOnly` | external/astyle/astyle_main.cpp:365-446 | only the requested line end is left |
| `LineEnds.LinesOfJoin` | external/astyle/astyle_main.cpp:365-446 | joining lines without line ends and splitting again gives them back |
| `StreamLines.PeekingIsInvisible` | external/astyle/astyle_main.cpp:241-283 | past the start, any number of allowed peeks return exactly what the following reads return, and the reset restores the whole iterator |
| `StreamLines.ResetComesBackIff` | external/astyle/astyle_main.cpp:247-282 | from any position what the reset does restores the iterator if and only if the peeks did not start at position 0 or there was only one, a case that the assertion of the source refuses |
| `StreamLines.ReadMovesOn` | external/astyle/astyle_main.cpp:146-234 | a read passes the start of its line or meets the end |
| `StreamLines.ReadingLosesNothing` | external/astyle/astyle_main.cpp:146-234 | the lines read until the end are the text without its line-end characters |
| `StreamLines.ReadsLogicalLines` | external/astyle/astyle_main.cpp:146-234 | the lines read are the logical lines of the text if and only if no block of alternating line-end characters runs from LF to CR; otherwise they are fewer |
| `StreamIteratorObject.StreamIterator.constructor` | external/astyle/astyle_main.cpp:105-120 | position, flag, counters and buffers at the start |
| `StreamIteratorObject.StreamIterator.TakeLine` | external/astyle/astyle_main.cpp:163-177 | the character loop takes the line and its first line-end character, and sets the flag exactly at the end |
| `StreamIteratorObject.StreamIterator.CountLineEnd` | external/astyle/astyle_main.cpp:179-208 | a pair of different line-end characters is one Windows line end; one that ends the text is not counted, and the flag is cleared again |
| `StreamIteratorObject.StreamIterator.ChooseLineEnd` | external/astyle/astyle_main.cpp:210-231 | the most frequent line end is written |
| `StreamIteratorObject.StreamIterator.SaveBuffer` | external/astyle/astyle_main.cpp:151-162 | the previous line is kept unless an empty line was deleted |
| `StreamIteratorObject.StreamIterator.NextLine` | external/astyle/astyle_main.cpp:146-234 | the whole new state of a read, and the line returned |
| `StreamIteratorObject.StreamIterator.PeekNextLine` | external/astyle/astyle_main.cpp:241-273 | the whole new state of a peek: counters and buffers stay, the mark is set once |
| `StreamIteratorObject.StreamIterator.PeekReset` | external/astyle/astyle_main.cpp:275-283 | the position goes back to the mark and the flag is cleared |
| `LineSplittingProofs.PerformIsValid` | external/astyle/ASFormatter.cpp:7611-7693 | every append, break and split keeps all ten points within the line |
| `LineSplittingProofs.SplitKeepsText` | external/astyle/ASFormatter.cpp:7611-7693 | a split emits a front and keeps the rest, the old line with only blanks dropped at the cut; a waiting line is never overwritten |
| `LineSplittingProofs.SplitPointChoice` | external/astyle/ASFormatter.cpp:7695-7754 | a line is split at a recorded point that leaves ten characters if there is one, otherwise at the first pending one; a logical operator wins unless the rest would still be too long |
| `LineSplittingProofs.RefusalLasts` | external/astyle/ASFormatter.cpp:7578-7607 | once refused for its block or array a line is refused whatever stands around it later, and outside arrays in a statement it has no points left |
| `LineSplittingProofs.WholeBlockStarts` | external/astyle/ASFormatter.cpp:7593-7605 | the first character or operator of a block that must stay whole leaves no points |
| `LineSplittingProofs.UnbrokenIsUnlimited` | external/astyle/ASFormatter.cpp:7578-7607 | from then on until the flag is reset, every run gives exactly what it gives without a code length: the block is never split |
| `LineSplittingProofs.TextCanBeLost` | external/astyle/ASFormatter.cpp:2930-2944 | a run from the empty line that loses a line |
| `LineSplittingProofs.SplitThenBreakLoses` | external/astyle/ASFormatter.cpp:3978-3982 | for every code length, a run in which a split is followed by a break and the split line is lost |
| `LineSplittingMarks.RunKeepsSpace` | external/astyle/ASFormatter.cpp:7359-7576 | over whole runs a logical point stands beside its operator or the blank before it, and a white point beside a blank, a parenthesis or an operator, if pointers are noted at blanks |
| `LineSplittingMarks.SplitCutsNoName` | external/astyle/ASFormatter.cpp:7611-7693 | no split cuts a name, except possibly at a logical point beside a letter of `or` or `and` |
| `LineSplittingProofs.RunKeepsMarks` | external/astyle/ASFormatter.cpp:7359-7576 | over whole runs the semicolon and comma points stand behind their character and the parenthesis points beside one |
| `LineSplittingProofs.PerformAddsText` | external/astyle/ASFormatter.cpp:2827-2903 | an operation adds exactly its own text to what is collected, waiting and growing, if and only if it does not break the line while one with text waits |
| `LineSplittingProofs.RunKeepsText` | external/astyle/ASFormatter.cpp:2827-2954 | over whole runs the points stay within the line, and the text comes out in order, blanks aside, if and only if no break overwrote a waiting line |
| `LineSplittingProofs.SplitKeepsPlaces` | external/astyle/ASFormatter.cpp:7634-7683 | a split moves each point, or the pending one that takes over, to the same place of the rest |
| `LineSplittingProofs.PerformKeepsMarks` | external/astyle/ASFormatter.cpp:7359-7576 | the semicolon and comma points always stand behind their character and the parenthesis points beside one |
| `LineSplitting.FirstPending` | external/astyle/ASFormatter.cpp:7718-7733 | the smallest pending point that is set |
| `LineSplitterObject.LineSplitter.constructor` | external/astyle/ASFormatter.cpp:169-174 | an empty line without points |
| `LineSplitterObject.LineSplitter.ClearFormattedLineSplitPoints` | external/astyle/ASFormatter.cpp:7756-7768 | no points are left |
| `LineSplitterObject.LineSplitter.BreakLine` | external/astyle/ASFormatter.cpp:2930-2954 | the line waits to be collected; the points go unless it was split |
| `LineSplitterObject.LineSplitter.IsOkToSplitFormattedLine` | external/astyle/ASFormatter.cpp:7578-7609 | decides from the text around and the innermost brace; a refusal for a block or an array is kept, so that every later answer is no until the line is released, and gives up the points except in an array inside a statement |
| `LineSplitterObject.LineSplitter.ReleaseLine` | external/astyle/ASFormatter.cpp:2629-2633 | a new source line ends the refusal, as the braces of a block do |
| `LineSplitterObject.LineSplitter.UpdateFormattedLineSplitPoints` | external/astyle/ASFormatter.cpp:7359-7461 | the place a character offers is recorded, as pending beyond the code length |
| `LineSplitterObject.LineSplitter.UpdateFormattedLineSplitPointsOperator` | external/astyle/ASFormatter.cpp:7463-7558 | the place an operator offers is recorded |
| `LineSplitterObject.LineSplitter.UpdateFormattedLineSplitPointsPointerOrReference` | external/astyle/ASFormatter.cpp:7560-7576 | the blank of a pointer is recorded unless a later place is known |
| `LineSplitterObject.LineSplitter.FindFormattedLineSplitPoint` | external/astyle/ASFormatter.cpp:7695-7754 | where a line that is too long is split |
| `LineSplitterObject.LineSplitter.FindPending` | external/astyle/ASFormatter.cpp:7718-7733 | the chain of comparisons finds the smallest pending point |
| `LineSplitterObject.LineSplitter.AdjustSplitPoints` | external/astyle/ASFormatter.cpp:7634-7664 | the points after a cut, pending ones taking over |
| `LineSplitterObject.LineSplitter.DropLeadingBlanks` | external/astyle/ASFormatter.cpp:7665-7683 | the rest starts with its first text, the points moved along |
| `LineSplitterObject.LineSplitter.TestForTimeToSplitFormattedLine` | external/astyle/ASFormatter.cpp:7611-7693 | the whole state after the check: split once, or unchanged |
| `LineSplitterObject.LineSplitter.AppendCharacter` | external/astyle/ASFormatter.cpp:2827-2842 | the whole state after appending a character |
| `LineSplitterObject.LineSplitter.AppendText` | external/astyle/ASFormatter.cpp:2852-2859 | the whole state after appending a sequence |
| `LineSplitterObject.LineSplitter.AppendOperatorText` | external/astyle/ASFormatter.cpp:2868-2881 | the whole state after appending an operator |
| `LineSplitterObject.LineSplitter.RegisterLineBreak` | external/astyle/ASFormatter.cpp:2829-2830 | the next append that may break the line breaks it |
| `LineSplitterObject.LineSplitter.Collect` | external/astyle/ASFormatter.cpp:1897-1901 | the waiting line is handed out, and the flag is cleared |
| `LineSplitterObject.LineSplitter.Do` | external/astyle/ASFormatter.cpp:2827-2954 | one operation of a run, on the fields |
| `LineSplitterObject.LineSplitter.Run` | external/astyle/ASFormatter.cpp:2827-2954 | every run of operations hands out the lines and leaves the state of the machine, so that the laws of whole runs are laws of the object |
| `LineSplitterObject.LineSplitter.AppendPad` | external/astyle/ASFormatter.cpp:2887-2903 | the whole state after padding: nothing after a blank or on an empty line |
| `LineIndents.UnindentUndoesIndent` | external/astyle/ASEnhancer.cpp:750-794 | on every line with text, unindenting undoes indenting in space and tab mode, and in force-tab mode if and only if the line is canonical |
| `LineIndents.BeautifiedLineComesBack` | external/astyle/ASEnhancer.cpp:256-286 | on every line as the beautifier writes it, unindenting undoes indenting if and only if the indent string is a tab, force-tab-x is off, or the blanks written are fewer than a tab is wide |
| `LineIndents.BeautifiedLineChanges` | external/astyle/ASBeautifier.cpp:517-521 | with tabs of 8 forced and then indents of 4 spaces, eight spaces come back as a tab |
| `LineIndents.IndentWidth` | external/astyle/ASBeautifier.cpp:1256-1281 | the indent is as wide as indentCount indents and spaceIndentCount columns; with force-tab and an indent string of spaces if and only if no tab fits |
| `LineIndents.IndentAddsWidth` | external/astyle/ASEnhancer.cpp:256-286 | indenting adds whole indents to the width and leaves the text alone |
| `LineIndents.IndentsAdd` | external/astyle/ASEnhancer.cpp:256-286 | indenting twice is indenting once by the sum |
| `LineIndents.CanonicalIsLayout` | external/astyle/ASEnhancer.cpp:188-196 | a line is canonical exactly if converting its indent to spaces and back gives it back |
| `LineIndents.ConvertForceTabIndentToSpaces` | external/astyle/ASEnhancer.cpp:167-182 | the loop leaves as many spaces as the white space was wide, and the text |
| `LineIndents.ConvertSpaceIndentToForceTab` | external/astyle/ASEnhancer.cpp:188-196 | as many tabs as fit, then the remaining spaces; no result for a line without text |
| `LineIndents.IndentLine` | external/astyle/ASEnhancer.cpp:256-286 | the new line in all three modes, and the number of characters inserted |
| `LineIndents.UnindentLine` | external/astyle/ASEnhancer.cpp:750-794 | the new line in all three modes: all that was asked for is taken, or nothing |
| `LineIndents.UnindentForceX` | external/astyle/ASEnhancer.cpp:762-775 | the force-tab mode by way of spaces |
| `LineIndents.PreLineWS` | external/astyle/ASBeautifier.cpp:1256-1281 | the two loops write the indents and spaces of the counts, divided toward zero |
| `LineIndents.IndentIs` | external/astyle/ASBeautifier.cpp:1256-1281 | one block of tabs or spaces, then single spaces |
| `Switches.EveryRunIsValid` | external/astyle/ASEnhancer.cpp:624-649 | on every text, balanced or not, switchDepth is the size of switchStack, so no pop meets an empty stack, and no line is unindented by a negative amount |
| `Switches.SwitchRestores` | external/astyle/ASEnhancer.cpp:624-699 | for every well-nested text, sw and the stack after the closing brace of a switch are what they were before the keyword |
| `Switches.SwitchGivesBackIff` | external/astyle/ASEnhancer.cpp:624-647 | a switch gives the stack back if and only if cases are not indented |
| `Switches.IndentedCasesGrow` | external/astyle/ASEnhancer.cpp:624-647 | with indented cases each switch leaves one entry behind |
| `Switches.ItemKeeps` | external/astyle/ASEnhancer.cpp:661-733 | any nested block, braced label or switch leaves the stack and the brace count of its switch |
| `Switches.Step` | external/astyle/ASEnhancer.cpp:466-649 | one part of a line keeps switchDepth equal to the size of the stack |
| `SwitchLayout.ProgramUnindents` | external/astyle/ASEnhancer.cpp:127-159 | every line of a laid-out program is unindented by the number of enclosing switches whose current case opened with a brace, and the stack ends empty |
| `SwitchLayout.SwitchOk` | external/astyle/ASEnhancer.cpp:624-699 | a switch inside any other: its own lines get the depth outside, its state is undone |
| `SwitchLayout.CaseOk` | external/astyle/ASEnhancer.cpp:701-732 | a case with its brace attached, on the next line, or without one |
| `EnhancerObject.Enhancer.constructor` | external/astyle/ASEnhancer.cpp:65-84 | no switch at the start |
| `EnhancerObject.Enhancer.Unindent` | external/astyle/ASEnhancer.cpp:750-794 | the text of the line follows the unindents made |
| `EnhancerObject.Enhancer.SaveSwitch` | external/astyle/ASEnhancer.cpp:624-632 | the keyword saves the variables; the unindent depth goes on |
| `EnhancerObject.Enhancer.RestoreSwitch` | external/astyle/ASEnhancer.cpp:694-696 | the variables of the outer switch come back |
| `EnhancerObject.Enhancer.UnindentLastLine` | external/astyle/ASEnhancer.cpp:684-693 | the line that ends a switch: by the outer depth if the brace is first on it |
| `EnhancerObject.Enhancer.ProcessClose` | external/astyle/ASEnhancer.cpp:677-699 | a closing brace inside a switch |
| `EnhancerObject.Enhancer.ProcessOpen` | external/astyle/ASEnhancer.cpp:666-676 | an opening brace, which starts an unindented case after a label |
| `EnhancerObject.Enhancer.ProcessLabel` | external/astyle/ASEnhancer.cpp:701-732 | a label ends the unindented case before it; its own brace is pending for the next line |
| `EnhancerObject.Enhancer.ProcessSwitchBlock` | external/astyle/ASEnhancer.cpp:661-740 | one part of a line inside a switch, with the whole new state |
| `EnhancerObject.Enhancer.ProcessComment` | external/astyle/ASEnhancer.cpp:515-560 | a comment in a braced case is unindented one level less |
| `EnhancerObject.Enhancer.ParseCurrentLine` | external/astyle/ASEnhancer.cpp:466-649 | the loop over a line is the run of the machine |
| `EnhancerObject.Enhancer.StartOfLine` | external/astyle/ASEnhancer.cpp:101-133 | the flags of a line, and the pending unindent on the first line that is not blank |
| `EnhancerObject.Enhancer.EndOfLine` | external/astyle/ASEnhancer.cpp:156-159 | the unindent at the end of a line, one level less for a comment in a braced case |
| `EnhancerObject.Enhancer.Enhance` | external/astyle/ASEnhancer.cpp:101-159 | the state after a whole line, and its text after exactly the unindents made |
| `HeaderTables.FindHeader` | external/astyle/ASResource.cpp:667-704 | with both early exits, on every table sorted by name, the result is that of the exhaustive search for a whole word with the same exclusions |
| `HeaderTables.NothingLater` | external/astyle/ASResource.cpp:679-683 | once an entry is after the text here, no later entry stands here |
| `HeaderTables.FoundIffWholeWord` | external/astyle/ASResource.cpp:667-704 | a name is found if and only if it is in the table, is the whole word here, and what follows does not exclude it |
| `HeaderTables.WholeWordIsUnique` | external/astyle/ASResource.cpp:684-688 | only one name can be the whole word at a position |
| `HeaderTables.FindOperator` | external/astyle/ASResource.cpp:730-747 | with the longest first, the longest operator that stands here is found |
| `HeaderTables.UnlessExcluded` | external/astyle/ASResource.cpp:689-700 | the exclusions by the next character |
| `NumberFormat.GetNumberFormat` | external/astyle/astyle_main.cpp:1426-1462 | the loop terminates and joins the groups of the digits by the separator |
| `NumberFormat.GroupsAreGrouping` | external/astyle/astyle_main.cpp:1438-1460 | from the right the groups have the listed sizes with the last repeated, the leftmost is not empty and at most its size, and together they are the digits |
| `NumberFormat.GroupingIsUnique` | external/astyle/astyle_main.cpp:1438-1460 | no other grouping has these properties |
| `NumberFormat.SeparatorsComeOut` | external/astyle/astyle_main.cpp:1426-1462 | for any positive sizes, taking the separators out gives the digits back |

## Left out

- Character-level scanning of quotes, comments, raw strings and assembler: the machines take tokens, and conditions, labels and comments come closed.
- Options that change the machines (blockIndent, braceIndent, switchIndent, classIndent, namespaceIndent, braces of styles other than the default): the beautifier is modelled with its defaults, the enhancer with any caseIndent and emptyLineFill.
- Classes, namespaces, templates, enums, initializer lists, Objective-C, SQL, C# and Java special cases, and `g_preprocessorCppExternCBrace`: heuristics without a specification.
- `static` and `synchronized` headers, and with them `probationHeader` and the one-line-block clause of `adjustParsedLineIndentation` that depends on it.
- Multi-line `#define` clones and the indentation of the directives themselves: directives are printed as they stand.
- Host byte order: `getBigEndian` is taken as false; the byte order of the text is free.
- Malformed UTF input beyond what the loops do with it, and blocks of UTF-16 that are cut inside a surrogate pair.
- Preprocessor.ClonesRefineBranches: does not model the fields of a clone other than its header stacks, nor the flags that `beautify` writes into the active clone before it delegates.
- BeautifierObject.Beautifier.Copy: copies the header stacks and the flags of a line; the other containers and flags of a beautifier are not modelled.
- BeautifierObject.Beautifier.ParseHeader: does not model `finally`, `static`, `synchronized` and `template`, nor headers of other languages.
- BeautifierObject.Beautifier.AdjustParsedLineIndentation: does not model the clause on previousLineProbationTab, which only those headers set, and the brace-indent options.
- StatementIndents.ProgramIndents: lays out one-line blocks only where they keep the stacks and their indentation, by the conditions of `InlineStatements.InlineBlockKeepsIff`; does not lay out a statement after an opening brace on the brace's line, nor a companion after a one-line block on the block's line.
- SourceBeautifierObject.SourceBeautifier.BeautifyCode: does not model the formatter variables that are copied into the active clone.
- ContinuationObject.ContinuationIndents.RegisterContinuationIndent: does not model the clause that registers 0 for a NonInStatementArray: it needs a block opener on top of braceBlockStateStack, and the one caller at a brace (external/astyle/ASBeautifier.cpp:2919-2924) has just pushed the opposite.
- ContinuationObject.ContinuationIndents.ParseOpenParen: does not model the square-bracket count of Objective-C calls and the pops in struct declarations.
- ContinuationObject.ContinuationIndents.ParseSeparator: does not model commas in enums, templates and class headers.
- LineSplitterObject.LineSplitter.DropLeadingBlanks: does not model the skip over blanks of the current line and the comment position.
- LineSplitterObject.LineSplitter.TestForTimeToSplitFormattedLine: does not model the requests for empty lines around blocks.
- EnhancerObject.Enhancer.StartOfLine: does not model the flags of event tables and declare sections.
- EncodingObject.ASEncoding.constructor: the state that the source keeps in a static variable of one function is a field of the object here.
- EncodingObject.ASEncoding.Utf16ToUtf8: does not model a read past the buffer: the input must hold whole units and must not end in a lead surrogate.
- Wildcards.Wildcmp: does not model case folding outside the letters A to Z, and a C string is modelled without its terminator.
- LineEnds.ConvertLineEnds: does not model the stream it writes back to; the text is a parameter.
- LineIndents.IndentLine: does not model the failure that the source meets on a line without text in force-tab mode beyond saying that there is no result.
- LineIndents.PreLineWS: does not model machine-integer overflow of indentCount * indentLength.
- EnhancerObject.Enhancer.Enhance: does not model event tables and declare sections, so the only change to a line is unindenting; it is given the parts of the line as tokens.
- SwitchLayout.ProgramUnindents: does not model comments and several statements on a line, which the general results of `Switches` include.
- LineSplitterObject.LineSplitter.FindFormattedLineSplitPoint: does not model the rounding of the factors .7 and .3, which are compared as exact fractions.
- LineSplitterObject.LineSplitter.IsOkToSplitFormattedLine: does not model how the formatter finds that it is in a comment, quote, case, directive or template, and the type of the innermost brace; these are parameters, as is the rest of the text around.
- LineSplitterObject.LineSplitter.BreakLine: does not model the space padding counters, the comment position and the requests for empty lines.
- HeaderTables.FindHeader: does not model characters above 127, for which the source answers as for other characters that are not part of a name.
- NumberFormat.GetNumberFormat: does not model group sizes that are negative as a C `char`.
- StreamIteratorObject.StreamIterator.NextLine: does not model the Windows build, in which a text without line ends counts as Windows.
- `saveLastInputLine`, `getLineEndFormat` and the retrieval of words (`getCurrentWord`): they would only add easy members.
- File access, directory walking, locale, option parsing, help text, JNI: input and output or flat branch lists.
- `isPointerOrReference`, `formatPointerOrReference*`, `padOperators`, `padParens`: guesses about C++ meaning.
