# A verified model of the Vypr toy-language compiler

The repository compiles a small indentation-based language (`var`, `if`/`else`, `loop … times`,
`loop … in`, `while`, `func`, `return`, `print`, `input`) to Python source text. It does so in
five passes, and this project models each pass as Dafny code with proved contracts:

- **Lexers** (`lexer.py` and `src/vypr/lexer.py`). Both turn source text into tokens with
  INDENT/DEDENT layout tokens, using a stack of indentation widths. `LexerBase.Lexer` is the
  shared character cursor, modelled as a class with the source's fields. `Indentation` is the
  pure specification of the indentation stack. The two `Tokenize` methods are the two
  token loops:
  - the older lexer pulls one token at a time through `get_next_token`;
  - the Vypr lexer runs a single loop that also counts tabs as four columns.
- **Parsers** (`parser.py` and `src/vypr/parser.py`). These are recursive-descent parsers over a
  token cursor (`ParserBase.Cursor`), with one Dafny method per production. Each method returns
  a `Result` whose error stands for the exception the source raises. Each is proved to return,
  and to move the cursor, exactly as a pure grammar function does: `ExprGrammar` for the
  expression levels, which both dialects share, and `RootGrammar` and `VyprGrammar` for the
  statements. The lemmas in `ExprGrammarFacts`, `RootGrammarFacts` and `VyprGrammarFacts` state
  what those functions mean:
  - binary operators fold to the left, in token order;
  - which layout tokens each statement requires or allows;
  - where each loop over statements stops;
  - how the Vypr function body recovers from a failing statement.
  The AST is `Ast`.
- **Semantic analysis** (`semantic_analyzer.py`). Scopes are symbol tables chained by their
  enclosing scope. They are kept as an arena (a sequence of tables with parent indices), and
  the analyzer is a class over that arena and its error list. Expression checking is proved
  against a pure error function.
- **IR generation** (`ir_generator.py`). This lowers the AST to three-address code with
  labels, temporaries `tN` and labels `LN`. Function objects live in an arena, and the
  ordered name table behaves like a Python dict. Every statement lowering is proved to append
  exactly the code of a pure specification: `StmtCode` for one statement, `BodyCode` for a
  list of statements and `MainCode` for the program. Lemmas give that code per statement kind.
  The headline result is that the generated functions are well formed:
  - jumps are closed within each function;
  - labels are unique;
  - names are distinct;
  - every non-main function ends in a return.
- **Code generation**, in two versions.
  - `code_generator.py` renders each function by walking its instructions with a simulated
    goto. A jump backwards makes that walk loop for ever, so the walk takes `fuel` and
    reports whether it finished.
  - `src/vypr/code_generator.py` rebuilds `if`/`else` blocks and `for` loops from label
    positions. Both its walk and its nested-if recursion are bounded by `fuel`, and running
    out yields `Diverged`. Each method of its `CodeGenerator` class is proved equal to a pure
    specification function. The lemmas in `VyprCodegenProps` and `VyprProgram` then show
    that the IR shapes the IR generator produces come back as the intended Python text.

Both code generators share `Render`, the text of one instruction. It holds the first finding
below: the source drops a returned value that Python treats as false. The second finding is
that the older parser reads token kinds that the older lexer's enum does not define
(`RootTokenTypes`). Each finding is modelled twice, as written and corrected, and the rest of
the model uses the corrected version.

Elsewhere the model follows the code as written where it has quirks. These include:

- the older lexer returns only the first of several DEDENT tokens that one line produces
  (`RootLexer.OnlyFirstDedent`);
- the older code generator records a label's position as the number of *non-label*
  instructions before it but uses that number as an index into the full list;
- the Vypr lexer reports a lone `!` at the column after it, and the older lexer at its own column.

## Model

| member | source | states |
|---|---|---|
| Wrappers.AppendAssoc | src/vypr/code_generator.py:45-46 | Appending lines to an output list in two steps is the same as appending their concatenation. |
| Text.DigitChar | ir_generator.py:115-118 | A decimal digit character whose code offset from '0' is the digit. |
| Text.NatToDecimal | ir_generator.py:115-118 | The decimal text of a counter is a non-empty string of digits. |
| Text.DecimalRoundTrip | lexer.py:112-130 | Reading back the decimal text of n gives n, so `int(result)` inverts `str(n)`. |
| Text.DecimalInjective | ir_generator.py:120-123 | Different counters have different decimal texts. |
| Text.Indent | code_generator.py:69 | `"    " * level` is 4·level spaces and empty for level ≤ 0. |
| Text.JoinStartsWithFirst | src/vypr/code_generator.py:45 | A newline-joined list of lines starts with its first line. |
| Tokens.KeywordKind | lexer.py:72-86 | The keyword table yields only keyword kinds, with `true`/`false` mapped to BOOLEAN; any other word is not a keyword. |
| Tokens.CountAppend | lexer.py:321-330 | Counting tokens of a kind distributes over concatenation of token lists. |
| Tokens.CountPush | lexer.py:325-329 | Appending one token raises only the count of its own kind. |
| Tokens.NoEofPush | lexer.py:325-329 | The tokenize loop keeps EOF out of the list until the final append, which leaves exactly one EOF, at the end. |
| Indentation.PopWider | lexer.py:176-179 | Popping removes exactly the stack entries wider than the new width and keeps a prefix of the stack. |
| Indentation.PoppedStep | lexer.py:167-184 | After popping, the line is consistent iff the remaining top equals the width: no pop means no token, k pops mean k DEDENTs. |
| Indentation.StepKeepsStack | lexer.py:167-184 | A successful indentation step leaves a strictly increasing stack whose top is the new width. |
| Indentation.StepFailsIff | lexer.py:181-182 | An indentation error is raised iff the width is narrower than the top and not on the stack. |
| Indentation.PopCountIsWiderEntries | src/vypr/lexer.py:379-384 | The number of DEDENTs is the number of stack entries wider than the new width. |
| Indentation.DepthChange | src/vypr/lexer.py:374-389 | The stack grows by one on INDENT, is unchanged with no token, and shrinks by k with k DEDENTs. |
| Indentation.BlankRunEnd | lexer.py:102-104 | Whitespace skipping stops at the first non-blank character or the end of the text, past only blanks. |
| Indentation.BlankWidthCountsTabsAsFour | src/vypr/lexer.py:365-371 | The measured indentation is the run length plus three for each tab: a tab counts as four. |
| Indentation.SpaceRunEnd | lexer.py:190-193 | The older lexer's indentation count stops at the first character that is not a space. |
| LexerBase.DigitsEnd | lexer.py:116-118 | The digit loop stops at the first non-digit and has consumed only digits. |
| LexerBase.ScanNumber | lexer.py:112-130 | A number lexeme consumes at least its first digit. |
| LexerBase.DigitsEndOfDigits | lexer.py:116-118 | A run of n digits followed by a non-digit ends exactly n characters on. |
| LexerBase.IntegerRoundTrip | lexer.py:112-130 | Lexing the decimal text of n (followed by a non-number) gives INTEGER n, consuming exactly that text. |
| LexerBase.FloatRoundTrip | lexer.py:120-128 | Digits, '.', digits lex as one FLOAT carrying that text, consuming exactly it. |
| LexerBase.PrefixedEmpty | lexer.py:138-142 | Prepending nothing to a scanned string leaves it unchanged. |
| LexerBase.PrefixedTwice | lexer.py:138-142 | Prepending two characters one after the other equals prepending both at once. |
| LexerBase.ScanString | lexer.py:132-148 | A closed string ends just past a closing quote of the same kind. |
| LexerBase.ScanEscaped | lexer.py:138-145 | Escaping the quote characters of s and closing the quote scans back to s. |
| LexerBase.ScanShift | lexer.py:138-142 | Scanning after a one- or two-character prefix gives the same string, shifted. |
| LexerBase.ScanFrom | lexer.py:138-142 | Scanning a suffix from any position gives the same result, shifted, as scanning the whole text. |
| LexerBase.StringRoundTrip | lexer.py:132-148 | Lexing a quoted, escaped string gives back the original content and consumes the whole literal. |
| LexerBase.NoQuoteIsUnterminated | lexer.py:144-148 | With no closing quote left, the string is unterminated. |
| LexerBase.IdentEnd | lexer.py:154-156 | Identifiers run over letters, digits and `_` up to the first other character. |
| LexerBase.IdentifierKinds | lexer.py:150-165 | A word is IDENTIFIER iff it is not a keyword, BOOLEAN iff it is `true`/`false` (valued `word == "true"`), and otherwise carries its text. |
| LexerBase.LineEnd | lexer.py:106-110 | A comment runs up to the next newline or the end of the text. |
| LexerBase.NewlineRunEnd | lexer.py:212-222 | Consecutive newlines are consumed as one run ending at the first non-newline. |
| LexerBase.DedentRun | src/vypr/lexer.py:525-528 | k DEDENT tokens, all at the same position. |
| LexerBase.DedentRunPush | src/vypr/lexer.py:381-384 | Appending one more DEDENT to a run of k gives a run of k+1. |
| LexerBase.DedentRunCounts | src/vypr/lexer.py:525-528 | A run of k DEDENTs holds k DEDENTs and nothing else. |
| LexerBase.LookaheadIsNotSingle | lexer.py:258-288 | The characters `=`, `!`, `<`, `>` are never lexed as a single-character token without lookahead. |
| LexerBase.ScanToken | lexer.py:225-311 | A successful token consumes at least one character and is a text token (not layout or EOF). |
| LexerBase.ScanOperator | lexer.py:238-311 | An operator or punctuation token consumes at least one character. |
| LexerBase.LookaheadOperators | lexer.py:258-288 | `X=` lexes as the two-character operator; otherwise a lone `!` is an error and `=`, `<`, `>` are ASSIGN, LESS_THAN, GREATER_THAN. |
| LexerBase.RootRejectsVyprPunctuation | lexer.py:310-311 | The older lexer rejects `.`, `[`, `]`, `^`, which the Vypr lexer accepts. |
| LexerBase.PopLevels | lexer.py:176-179 | The dedent loop leaves the popped stack and one DEDENT per popped entry. |
| LexerBase.Lexer.constructor | lexer.py:63-69 | A lexer starts at position 0, line 1, column 1, with indentation stack [0]. |
| LexerBase.Lexer.Advance | lexer.py:88-94 | Advancing moves one character on and bumps the column only while inside the text. |
| LexerBase.Lexer.SkipWhitespace | lexer.py:102-104 | Skips exactly the blank run, moving the column with it. |
| LexerBase.Lexer.SkipComment | lexer.py:106-110 | On `//` skips to the end of the line, and otherwise changes nothing. |
| LexerBase.Lexer.AdvanceDigits | lexer.py:116-118 | Consumes exactly the digit run and returns its text. |
| LexerBase.Lexer.LexNumber | lexer.py:112-130 | Returns the number token of the pure scanner at the start column and moves to its end. |
| LexerBase.Lexer.LexString | lexer.py:132-148 | Returns the scanned string token, or an unterminated-string error at the end of the text. |
| LexerBase.Lexer.LexIdentifier | lexer.py:150-165 | Returns the identifier or keyword token of the pure scanner. |
| LexerBase.Lexer.ProcessIndentation | lexer.py:167-184 | Updates the stack as the indentation step does and returns its INDENT/DEDENT tokens, or the indentation error. |
| LexerBase.Lexer.LexToken | lexer.py:225-311 | Returns exactly the token of the pure scanner for the dialect, or its error, and moves past it. |
| LexerBase.Lexer.LexOperator | lexer.py:238-311 | Returns the operator token of the pure scanner, or its error. |
| LexerBase.Lexer.LexLookahead | lexer.py:258-288 | The two-character operators `==`, `!=`, `<=`, `>=` and their one-character forms, as the scanner states. |
| LexerBase.Lexer.ConsumeNewlines | lexer.py:212-222 | Consumes the newline run, adding one line per newline. |
| RootLexer.CountSpaces | lexer.py:190-193 | The indentation width is the number of leading spaces consumed. |
| RootLexer.LineStart | lexer.py:188-200 | At a line start, returns one INDENT or the first DEDENT, with the stack depth changed to match. |
| RootLexer.OnlyFirstDedent | lexer.py:174-200 | When a line closes several levels, the stack is popped down to the line's level but only one DEDENT, at column 1 of the line, is returned. |
| RootLexer.ReturnedProgress | lexer.py:186-319 | Every token `get_next_token` can return moves the stack depth as its kind says; EOF comes only at the end of the text with the stack at [0]; any other token moves forward or closes a level. |
| RootLexer.Scan | lexer.py:202-311 | One pass of the loop after the line-start check: it either returns the NEWLINE of a newline run or the scanned token, as `get_next_token` does, or skips blanks or a comment, moving forward with the stack and line unchanged. |
| RootLexer.Decide | lexer.py:187-311 | One pass of the loop: at column 1 the line's indentation is measured and its first layout token returned, otherwise as `Scan`. |
| RootLexer.Exhausted | lexer.py:313-319 | At the end of the text one DEDENT is returned per call while a level is open, then EOF, without moving. |
| RootLexer.GetNextToken | lexer.py:186-319 | The token returned is the case of `Returned` that applies: the first layout token of a measured line, a NEWLINE for a newline run, the scanned token, or at the end of the text a DEDENT per open level and then EOF. The stack depth moves as the kind says; EOF leaves the stack at [0]; any other token moves forward or closes a level. |
| RootLexer.CountKeepsDepth | lexer.py:321-330 | Counting INDENTs minus DEDENTs tracks the stack depth across one more token. |
| RootLexer.Pull | lexer.py:323-327 | One loop step keeps the INDENT/DEDENT balance equal to the stack depth and makes progress. |
| RootLexer.Tokenize | lexer.py:321-330 | The token list ends with exactly one EOF and never has more DEDENTs than INDENTs. |
| VyprLexer.PushPlain | src/vypr/lexer.py:428-523 | A text token or NEWLINE keeps the token list balanced against the stack. |
| VyprLexer.PushIndent | src/vypr/lexer.py:374-378 | An INDENT at a line start, with a wider width pushed, keeps the balance. |
| VyprLexer.PushDedent | src/vypr/lexer.py:381-384 | A DEDENT with one stack entry popped keeps the balance. |
| VyprLexer.MeasureIndent | src/vypr/lexer.py:365-371 | Consumes the blank run at a line start and returns its width with tabs as four. |
| VyprLexer.AppendDedents | src/vypr/lexer.py:379-384 | k DEDENTs with k entries popped keep the balance. |
| VyprLexer.StepKeepsBalance | src/vypr/lexer.py:373-389 | The layout tokens of one indentation step keep the token list balanced against the new stack. |
| VyprLexer.IndentLine | src/vypr/lexer.py:373-389 | Appends the layout tokens of the indentation step and returns the new stack, or the inconsistent-indentation error. |
| VyprLexer.DedentTail | src/vypr/lexer.py:525-528 | Appending closing DEDENTs keeps the list's prefix, adds no EOF and puts INDENTs nowhere new. |
| VyprLexer.ClosingCounts | src/vypr/lexer.py:525-528 | Closing DEDENTs equal in number to the open INDENTs balance the counts. |
| VyprLexer.ClosingBalances | src/vypr/lexer.py:525-528 | After closing all open levels, INDENTs and DEDENTs are equal in number. |
| VyprLexer.ClosedIsResult | src/vypr/lexer.py:525-542 | The closed token list has every property promised of the tokenizer's result. |
| VyprLexer.ClosedFacts | src/vypr/lexer.py:525-542 | The closed list extends the loop's list, ends in exactly one EOF, has balanced INDENT/DEDENT and a NEWLINE before EOF. |
| VyprLexer.ClosedCounts | src/vypr/lexer.py:530-540 | The final NEWLINE and EOF do not change the INDENT/DEDENT balance. |
| VyprLexer.ClosedShape | src/vypr/lexer.py:530-540 | Adding the final NEWLINE (when missing) and EOF keeps the prefix and layout facts. |
| VyprLexer.CloseTokens | src/vypr/lexer.py:525-540 | The closing DEDENTs, the missing NEWLINE and EOF, exactly as the closing specification lays them out. |
| VyprLexer.Tokenize | src/vypr/lexer.py:348-542 | The token list ends with one EOF after a NEWLINE, has as many DEDENTs as INDENTs, and every INDENT follows a NEWLINE. |
| Ast.FoldLeftLast | parser.py:482-494 | The folded expression's top node applies the last operator to the fold of the earlier ones. |
| Ast.FoldLeftAppend | parser.py:482-494 | Folding in two stages equals folding all operands at once. |
| Ast.FoldLeftIsLeftNested | parser.py:482-494 | n operators give a left spine of depth n whose leftmost operand is the first operand: binary operators associate to the left. |
| Ast.ThreeOperands | parser.py:482-494 | `a - b - c` parses as `(a - b) - c`. |
| ParserBase.Cursor.constructor | parser.py:102-106 | A parser starts at the first token. |
| ParserBase.Cursor.Fail | parser.py:108-110 | Errors carry the reason and the position of the current token. |
| ParserBase.Cursor.Eat | parser.py:112-118 | On the expected kind returns the token and moves one on; otherwise the error and no move. |
| ParserBase.Cursor.Peek | parser.py:120-124 | The token n ahead, present iff inside the token list. |
| ParserBase.Cursor.PeekKind | parser.py:120-124 | The kind n tokens ahead, present iff inside the token list. |
| ParserBase.Cursor.SkipNewlines | parser.py:523-524 | Skips exactly a run of NEWLINE tokens. |
| ParserBase.Cursor.Skip | src/vypr/parser.py:463-467 | Error recovery moves one token on, keeping the current token at the end. |
| ParserBase.LoopDispatch | parser.py:265-292 | `loop` is a for loop iff IDENTIFIER IN follows, a times loop iff the third token is TIMES; a missing third token is the AttributeError. |
| ParserBase.LiteralType | parser.py:510-569 | Only INTEGER, FLOAT, STRING and BOOLEAN tokens are literals, each with its type name. |
| ParserBase.EatAt | parser.py:112-118 | `eat(k)` succeeds iff the current kind is k, then returns that token and moves one on (fewer tokens remain); on failure it does not move. |
| ParserBase.SkipNewlinesAt | parser.py:523-524 | Skipping NEWLINEs stops at the first token that is not a NEWLINE, never before where it started. |
| ParserBase.RemMonotone | parser.py:112-124 | Fewer tokens remain further along the list. |
| Chains.ChainSteps | parser.py:482-494 | A chain of n operator/operand pairs gives n fold steps. |
| Chains.ChainFoldIsFoldLeft | parser.py:482-494 | Parsing a chain operator by operator builds the left fold of its steps over the first operand. |
| ExprGrammar.ExpressionAt | parser.py:455-457 | A parsed expression consumes at least one token and never moves the cursor back. |
| ExprGrammar.LogicalAt | parser.py:459-464 | The logical level is the comparison level: it consumes at least one token. |
| ExprGrammar.ComparisonAt | parser.py:466-480 | A comparison consumes at least one token. |
| ExprGrammar.ComparisonFrom | parser.py:472-479 | The comparison loop stops only at a token that is not a comparison operator. |
| ExprGrammar.ArithmeticAt | parser.py:482-494 | An arithmetic expression consumes at least one token. |
| ExprGrammar.ArithmeticFrom | parser.py:488-493 | The arithmetic loop stops only at a token that is not `+`, `-` or CONCAT. |
| ExprGrammar.TermAt | parser.py:496-508 | A term consumes at least one token. |
| ExprGrammar.TermFrom | parser.py:502-507 | The term loop stops only at a token that is not `*` or `/`. |
| ExprGrammar.FactorAt | parser.py:510-524 | After the skipped NEWLINEs, a factor consumes at least one token. |
| ExprGrammar.PrimaryAt | parser.py:526-569 | A parsed primary consumes at least one token. |
| ExprGrammar.SignedAt | parser.py:528-534 | A signed factor consumes the sign and its operand. |
| ExprGrammar.ParenthesizedAt | parser.py:552-556 | A parenthesised expression consumes at least one token. |
| ExprGrammar.IdentifierFactorAt | src/vypr/parser.py:641-661 | A name, a call or a property access consumes at least one token. |
| ExprGrammar.PropertiesFrom | src/vypr/parser.py:651-659 | The property loop stops only at a token that is not `.`. |
| ExprGrammar.ItemsAt | parser.py:580-587 | The argument or element list never moves the cursor back. |
| ExprGrammar.ExpressionListFrom | parser.py:584-587 | The comma loop never moves the cursor back. |
| ExprGrammar.FunctionCallAt | parser.py:571-589 | A call consumes at least one token. |
| ExprGrammar.ArrayLiteralAt | parser.py:591-604 | An array literal consumes at least one token. |
| ExprGrammarFacts.FactorLiteral | parser.py:536-550 | A literal token is a factor by itself: its literal, one token on. |
| ExprGrammarFacts.TermStart | parser.py:496-500 | A term is its first factor followed by the term loop. |
| ExprGrammarFacts.TermStep | parser.py:502-506 | `*` or `/` followed by a factor combines them into a left-nested binary operation and loops again. |
| ExprGrammarFacts.TermStop | parser.py:502 | Without `*` or `/` the term loop returns its node in place. |
| ExprGrammarFacts.ArithmeticStart | parser.py:482-486 | An arithmetic expression is its first term followed by the arithmetic loop. |
| ExprGrammarFacts.ArithmeticStep | parser.py:488-492 | `+`, `-` or CONCAT followed by a term combines them into a left-nested binary operation and loops again. |
| ExprGrammarFacts.ArithmeticStop | parser.py:488 | Without `+`, `-` or CONCAT the arithmetic loop returns its node in place. |
| ExprGrammarFacts.ComparisonStart | parser.py:466-470 | A comparison is its first arithmetic expression followed by the comparison loop. |
| ExprGrammarFacts.ComparisonStep | parser.py:472-478 | A comparison operator followed by an arithmetic expression combines them into a left-nested binary operation and loops again. |
| ExprGrammarFacts.ComparisonStop | parser.py:472 | Without a comparison operator the loop returns its node in place. |
| ExprGrammarFacts.TermFromChain | parser.py:502-507 | The term loop over literals joined by `*`/`/` returns their left fold and stops right after the chain. |
| ExprGrammarFacts.TermChainStep | parser.py:502-506 | One step of such a chain: the first pair folds into the node and the rest is again a chain. |
| ExprGrammarFacts.TermChain | parser.py:496-508 | `a * b / c …` parses as the left fold of its literals and operators, ending right after the chain. |
| ExprGrammarFacts.TermLiteral | parser.py:496-508 | A literal not followed by `*`/`/` is a term by itself. |
| ExprGrammarFacts.ArithmeticFromChain | parser.py:488-493 | The arithmetic loop over literals joined by `+`/`-`/CONCAT returns their left fold. |
| ExprGrammarFacts.ArithmeticChainStep | parser.py:488-492 | One step of such a chain folds the first pair into the node. |
| ExprGrammarFacts.ArithmeticChain | parser.py:482-494 | `a - b + c …` parses as the left fold of its literals and operators, ending right after the chain. |
| ExprGrammarFacts.ComparisonFromChain | parser.py:472-479 | The comparison loop over literals joined by comparison operators returns their left fold. |
| ExprGrammarFacts.ComparisonChainStep | parser.py:472-478 | One step of such a chain folds the first pair into the node. |
| ExprGrammarFacts.ExpressionChain | parser.py:455-480 | A whole expression `a < b == c …` is the left fold of its operands under its operators, in token order. |
| ExprGrammarFacts.ProductInsideSum | parser.py:482-508 | `a + b * c` parses as `a + (b * c)`: `*` binds tighter than `+`. |
| ExprGrammarFacts.ProductBeforeSum | parser.py:482-508 | `a * b + c` parses as `(a * b) + c`. |
| ExprGrammarFacts.PrimaryCases | parser.py:526-569 | A literal gives its literal; a sign gives a unary operation on the following factor; a parenthesis gives the inner expression and ends after RPAREN; a token no branch takes is the invalid-factor error with no move. |
| ExprGrammarFacts.NamePrimary | src/vypr/parser.py:638-661 | IDENTIFIER LPAREN is a call and LBRACKET an array literal; a bare identifier is a name, followed in the Vypr dialect by its property chain. |
| ExprGrammarFacts.CallShape | parser.py:571-604 | A call is the identifier applied to the items up to RPAREN; an array literal is the items up to RBRACKET. |
| ExprGrammarFacts.PropertiesShape | src/vypr/parser.py:651-659 | The property loop keeps a chain of accesses rooted at the identifier, and `.` without a name after it is the property-name error. |
| ExprGrammarFacts.TwoProperties | src/vypr/parser.py:641-661 | `a.b.c` parses as `(a.b).c`. |
| ExprGrammarFacts.EmptyItems | parser.py:571-604 | `f()` is a call with no arguments and `[]` an empty array literal. |
| ExprGrammarFacts.ItemsShape | parser.py:580-587 | A non-empty item list starts with the first expression and stops where no COMMA follows. |
| ExprGrammarFacts.ExpressionListShape | parser.py:584-587 | The comma loop keeps the items already parsed as a prefix and stops where no COMMA follows. |
| RootGrammar.ProgramAt | parser.py:126-129 | A parsed program stops at EOF or a DEDENT. |
| RootGrammar.StatementListAt | parser.py:131-151 | After the leading NEWLINEs, the statement list stops only at EOF or a DEDENT. |
| RootGrammar.StatementsFrom | parser.py:139-150 | The statement loop stops only at EOF or a DEDENT. |
| RootGrammar.StatementAt | parser.py:153-192 | A parsed statement consumes at least one token. |
| RootGrammar.IdentifierStatementAt | parser.py:179-183 | A statement starting with an identifier consumes at least one token. |
| RootGrammar.NewlineOrEofAt | parser.py:194-208 | The statement end never moves the cursor back. |
| RootGrammar.VarDeclarationAt | parser.py:210-222 | A declaration consumes at least one token. |
| RootGrammar.AssignmentAt | parser.py:224-231 | An assignment consumes at least one token. |
| RootGrammar.BlockFrom | parser.py:245-247 | A block's statement loop stops only at one of its end kinds. |
| RootGrammar.IfAt | parser.py:233-263 | An if statement consumes at least one token. |
| RootGrammar.StrictSuiteAt | parser.py:240-248 | A suite with required COLON NEWLINE INDENT … DEDENT consumes at least one token. |
| RootGrammar.ElseAt | parser.py:250-261 | The else part never moves the cursor back. |
| RootGrammar.LoopAt | parser.py:265-292 | A loop statement consumes at least one token. |
| RootGrammar.WhileLoopAt | parser.py:278-289 | A while loop consumes at least one token. |
| RootGrammar.TimesLoopAt | parser.py:294-326 | A times loop consumes at least one token. |
| RootGrammar.LoopSuiteAt | parser.py:301-324 | A times or for suite consumes at least its COLON and NEWLINE. |
| RootGrammar.LoopBodyAt | parser.py:305-324 | The loop body never moves the cursor back. |
| RootGrammar.ForLoopAt | parser.py:606-640 | A for loop consumes at least one token. |
| RootGrammar.ParametersAt | parser.py:343-355 | The parameter list never moves the cursor back. |
| RootGrammar.ParametersFrom | parser.py:350-355 | The comma loop never moves the cursor back. |
| RootGrammar.FunctionDeclarationAt | parser.py:328-417 | A function declaration consumes at least one token. |
| RootGrammar.FunctionHeaderAt | parser.py:336-357 | The header FUNC name LPAREN parameters RPAREN consumes at least one token. |
| RootGrammar.FunctionSuiteAt | parser.py:358-410 | The function suite consumes at least its COLON and NEWLINE. |
| RootGrammar.FunctionBlockAt | parser.py:361-410 | The function block never moves the cursor back. |
| RootGrammar.FunctionBodyFrom | parser.py:384-406 | The function-body loop never moves the cursor back. |
| RootGrammar.ReturnAt | parser.py:419-428 | A return statement consumes at least one token. |
| RootGrammar.PrintAt | parser.py:430-435 | A print statement consumes at least one token. |
| RootGrammar.InputAt | parser.py:437-443 | An input statement consumes at least one token. |
| RootGrammar.ExpressionStatementAt | parser.py:445-453 | An expression statement consumes at least one token. |
| RootGrammarFacts.SkipDedentsAt | parser.py:185-187 | The run of DEDENTs from a position: every token skipped is a DEDENT and the first one left is not. |
| RootGrammarFacts.StatementSkipsDedents | parser.py:185-187 | `statement` eats leading DEDENTs and retries: parsing from a run of DEDENTs is parsing from its end. |
| RootGrammarFacts.StatementKind | parser.py:153-192 | A parsed statement has the kind its leading token dispatches to; a token that starts no statement is the unexpected-statement error with no move. |
| RootGrammarFacts.IdentifierStatementChoice | parser.py:179-183 | After an identifier, ASSIGN gives an assignment and anything else an expression statement. |
| RootGrammarFacts.LoopForms | parser.py:265-292 | `loop` parses as a for loop iff IDENTIFIER IN follows and otherwise as a times loop; a missing second lookahead and an invalid form are their errors, with no move. |
| RootGrammarFacts.StatementEnd | parser.py:194-208 | The statement end succeeds iff the token is NEWLINE, DEDENT or EOF; NEWLINE and DEDENT are consumed, EOF is not; otherwise the statement-end error with no move. |
| RootGrammarFacts.VarDeclarationShape | parser.py:210-222 | A declaration is VAR IDENTIFIER, named by that identifier, with an initial value iff ASSIGN follows; a missing name is the identifier error. |
| RootGrammarFacts.AssignmentShape | parser.py:224-231 | An assignment is IDENTIFIER ASSIGN expression, to that identifier, of that expression. |
| RootGrammarFacts.ReturnShape | parser.py:419-428 | A return starts at RETURN and has no value iff NEWLINE or EOF follows. |
| RootGrammarFacts.PrintInputShape | parser.py:430-443 | A print statement prints the expression after PRINT; an input statement reads into the identifier after INPUT. |
| RootGrammarFacts.StrictSuiteLayout | parser.py:240-248 | A strict suite starts with COLON NEWLINE INDENT and ends right after a DEDENT; COLON NEWLINE without INDENT is the "expected INDENT" error. |
| RootGrammarFacts.ElseShape | parser.py:250-261 | No ELSE means no else part and no move; ELSE is followed by a strict suite, which is the else block. |
| RootGrammarFacts.IfShape | parser.py:233-238 | An if statement starts at IF; any other token is the "expected IF" error with no move. |
| RootGrammarFacts.LoopBodyStops | parser.py:305-324 | A times or for body stops at EOF, VAR or FUNC, or right after a DEDENT. |
| RootGrammarFacts.LoopBodyIndentOptional | parser.py:305-306 | The INDENT at the start of a times or for body is optional: the body parses the same without it. |
| RootGrammarFacts.FunctionBodyStops | parser.py:384-406 | The body keeps the statements parsed so far, has a return only as its last statement, and without a return stops at DEDENT, FUNC or EOF. |
| RootGrammarFacts.FunctionDeclarationShape | parser.py:328-417 | A function is FUNC IDENTIFIER …, named by that identifier, with a return only as the last statement of its body. |
| RootGrammarFacts.FunctionSuiteShape | parser.py:358-410 | A function suite has a return only as its last statement. |
| RootGrammarFacts.FunctionBlockShape | parser.py:361-410 | A function block has a return only as its last statement. |
| RootGrammarFacts.ParametersShape | parser.py:343-355 | No identifier means no parameters and no move; otherwise the first parameter is that identifier and the list stops where no COMMA follows. |
| RootGrammarFacts.ParametersFromShape | parser.py:350-355 | The comma loop keeps the parameters so far as a prefix and stops where no COMMA follows. |
| RootParser.Parse | parser.py:642-643 | `parse` returns exactly the program production's result from the first token. |
| RootParser.ParseProgram | parser.py:126-129 | Returns and moves exactly as `RootGrammar.ProgramAt` from the old position: it stops at EOF or a DEDENT. |
| RootParser.StatementList | parser.py:131-151 | Returns and moves exactly as `RootGrammar.StatementListAt`: statements up to EOF or DEDENT, which are not consumed. |
| RootParser.Statement | parser.py:153-192 | Returns and moves exactly as `RootGrammar.StatementAt`; with `StatementSkipsDedents` and `StatementKind`, leading DEDENTs are eaten and the statement retried, and the kind is the one the leading token selects. |
| RootParser.ParseIdentifierStatement | parser.py:179-183 | Returns and moves exactly as `RootGrammar.IdentifierStatementAt`: assignment iff ASSIGN follows the identifier. |
| RootParser.EatNewlineOrEof | parser.py:194-208 | Returns and moves exactly as `RootGrammar.NewlineOrEofAt`: NEWLINE or DEDENT consumed, EOF accepted in place, anything else the statement-end error. |
| RootParser.ParseVarDeclaration | parser.py:210-222 | Returns and moves exactly as `RootGrammar.VarDeclarationAt`. |
| RootParser.ParseAssignment | parser.py:224-231 | Returns and moves exactly as `RootGrammar.AssignmentAt`. |
| RootParser.Block | parser.py:245-247 | Returns and moves exactly as `RootGrammar.BlockFrom` with no statements yet: it stops only at one of its end kinds. |
| RootParser.ParseIf | parser.py:233-263 | Returns and moves exactly as `RootGrammar.IfAt`: both branches are strict suites, so a missing INDENT or DEDENT is the `eat` error (`StrictSuiteLayout`). |
| RootParser.ParseStrictSuite | parser.py:240-248 | Returns and moves exactly as `RootGrammar.StrictSuiteAt`: COLON NEWLINE INDENT statements DEDENT, each layout token required. |
| RootParser.ParseElse | parser.py:250-261 | Returns and moves exactly as `RootGrammar.ElseAt`: no ELSE, no move; ELSE and a strict suite otherwise (`ElseShape`). |
| RootParser.ParseLoop | parser.py:265-292 | Returns and moves exactly as `RootGrammar.LoopAt`: the form the two lookahead tokens select, or its error. |
| RootParser.ParseWhileLoop | parser.py:278-289 | Returns and moves exactly as `RootGrammar.WhileLoopAt`: WHILE, the condition and a strict suite. |
| RootParser.ParseTimesLoop | parser.py:294-326 | Returns and moves exactly as `RootGrammar.TimesLoopAt`: the count, TIMES and a loop suite with optional INDENT, stop set {DEDENT, EOF, VAR, FUNC} and a trailing DEDENT eaten when present. |
| RootParser.ParseLoopSuite | parser.py:301-324 | Returns and moves exactly as `RootGrammar.LoopSuiteAt`. |
| RootParser.ParseLoopBody | parser.py:305-324 | Returns and moves exactly as `RootGrammar.LoopBodyAt`; `LoopBodyStops` and `LoopBodyIndentOptional` give its layout. |
| RootParser.ParseForLoop | parser.py:606-640 | Returns and moves exactly as `RootGrammar.ForLoopAt`: LOOP IDENTIFIER IN, the iterable and the same loop suite as a times loop. |
| RootParser.ParseParameters | parser.py:343-355 | Returns and moves exactly as `RootGrammar.ParametersAt` (`ParametersShape`). |
| RootParser.ParseParametersFrom | parser.py:350-355 | Returns and moves exactly as `RootGrammar.ParametersFrom` from the parameters already read. |
| RootParser.ParseFunctionDeclaration | parser.py:328-417 | Returns and moves exactly as `RootGrammar.FunctionDeclarationAt` (`FunctionDeclarationShape`). |
| RootParser.ParseFunctionHeader | parser.py:336-357 | Returns and moves exactly as `RootGrammar.FunctionHeaderAt`: the name and the parameter names. |
| RootParser.ParseFunctionSuite | parser.py:358-410 | Returns and moves exactly as `RootGrammar.FunctionSuiteAt`. |
| RootParser.ParseFunctionBlock | parser.py:361-410 | Returns and moves exactly as `RootGrammar.FunctionBlockAt`: the closing DEDENT is eaten only when an INDENT opened the body. |
| RootParser.ParseFunctionBody | parser.py:384-406 | Returns and moves exactly as `RootGrammar.FunctionBodyFrom` from no statements: it stops right after the first return or at DEDENT, FUNC or EOF (`FunctionBodyStops`). |
| RootParser.ParseReturn | parser.py:419-428 | Returns and moves exactly as `RootGrammar.ReturnAt` (`ReturnShape`). |
| RootParser.ParsePrint | parser.py:430-435 | Returns and moves exactly as `RootGrammar.PrintAt`. |
| RootParser.ParseInput | parser.py:437-443 | Returns and moves exactly as `RootGrammar.InputAt`. |
| RootParser.ParseExpressionStatement | parser.py:445-453 | Returns and moves exactly as `RootGrammar.ExpressionStatementAt`: leading NEWLINEs skipped, then the expression and the statement end. |
| RootParser.ParseExpression | parser.py:455-457 | Returns and moves exactly as `ExprGrammar.ExpressionAt` in the older dialect; `ExpressionChain` gives the left fold. |
| RootParser.ParseLogical | parser.py:459-464 | Returns and moves exactly as `ExprGrammar.LogicalAt`. |
| RootParser.ParseComparison | parser.py:466-480 | Returns and moves exactly as `ExprGrammar.ComparisonAt`: the first operand and the comparison loop (`ComparisonStart`, `ComparisonStep`, `ComparisonStop`). |
| RootParser.ParseComparisonFrom | parser.py:472-479 | Returns and moves exactly as `ExprGrammar.ComparisonFrom` from the node built so far. |
| RootParser.ParseArithmetic | parser.py:482-494 | Returns and moves exactly as `ExprGrammar.ArithmeticAt`: the first term and the arithmetic loop, a left fold (`ArithmeticChain`). |
| RootParser.ParseArithmeticFrom | parser.py:488-493 | Returns and moves exactly as `ExprGrammar.ArithmeticFrom` from the node built so far. |
| RootParser.ParseTerm | parser.py:496-508 | Returns and moves exactly as `ExprGrammar.TermAt`: the first factor and the term loop, a left fold (`TermChain`). |
| RootParser.ParseTermFrom | parser.py:502-507 | Returns and moves exactly as `ExprGrammar.TermFrom` from the node built so far. |
| RootParser.ParseFactor | parser.py:510-524 | Returns and moves exactly as `ExprGrammar.FactorAt`: NEWLINEs skipped, then the primary. |
| RootParser.ParsePrimary | parser.py:526-569 | Returns and moves exactly as `ExprGrammar.PrimaryAt`, whose branches `PrimaryCases` and `NamePrimary` state. |
| RootParser.ParseSigned | parser.py:528-534 | Returns and moves exactly as `ExprGrammar.SignedAt`: the sign applied to the following factor. |
| RootParser.ParseParenthesized | parser.py:552-556 | Returns and moves exactly as `ExprGrammar.ParenthesizedAt`: the inner expression, RPAREN required. |
| RootParser.ParseIdentifierFactor | parser.py:561-567 | Returns and moves exactly as `ExprGrammar.IdentifierFactorAt`: a call when LPAREN follows, otherwise the name. |
| RootParser.ParseFunctionCall | parser.py:571-589 | Returns and moves exactly as `ExprGrammar.FunctionCallAt` (`CallShape`, `EmptyItems`). |
| RootParser.ParseArrayLiteral | parser.py:591-604 | Returns and moves exactly as `ExprGrammar.ArrayLiteralAt` (`CallShape`, `EmptyItems`). |
| RootParser.ParseItems | parser.py:580-587 | Returns and moves exactly as `ExprGrammar.ItemsAt` up to the closing kind. |
| RootParser.ParseExpressionListFrom | parser.py:584-587 | Returns and moves exactly as `ExprGrammar.ExpressionListFrom` from the items already read. |
| RootTokenTypes.Member | lexer.py:4-48 | Reading a member of the older enum fails exactly for CONCAT, DOT, LBRACKET and RBRACKET, naming it; otherwise it is the kind itself. |
| RootTokenTypes.Members | parser.py:488 | A tuple of members is their set iff every member exists, and otherwise fails on a missing one. |
| RootTokenTypes.ArithmeticTestAsWritten | parser.py:488 | Against lexer.py's enum the arithmetic loop's test fails on CONCAT whatever the current token is. |
| RootTokenTypes.ArithmeticTestCorrected | src/vypr/lexer.py:5-54 | Against the Vypr enum the test is membership in `+`, `-`, CONCAT, and a chain of them parses as its left fold. |
| RootTokenTypes.FactorTestAsWritten | parser.py:526-569 | Against lexer.py's enum every factor that is not a sign, literal or parenthesis fails on LBRACKET, identifiers included. |
| RootTokenTypes.FactorTestCorrected | parser.py:526-569 | Against the Vypr enum no test fails: identifiers take the name branch, `[` the array branch, and other kinds give the invalid-factor error. |
| VyprGrammar.ProgramAt | src/vypr/parser.py:131-139 | A parsed program stops at EOF or a DEDENT. |
| VyprGrammar.StatementListAt | src/vypr/parser.py:141-167 | After the leading NEWLINEs, the statement list stops only at EOF or a DEDENT. |
| VyprGrammar.StatementsFrom | src/vypr/parser.py:151-165 | The statement loop stops only at EOF or a DEDENT. |
| VyprGrammar.StatementAt | src/vypr/parser.py:169-208 | A parsed statement consumes at least one token. |
| VyprGrammar.IdentifierStatementAt | src/vypr/parser.py:195-200 | A statement starting with an identifier consumes at least one token. |
| VyprGrammar.NewlineOrEofAt | src/vypr/parser.py:210-220 | The statement end never moves the cursor back. |
| VyprGrammar.VarDeclarationAt | src/vypr/parser.py:222-234 | A declaration consumes at least one token. |
| VyprGrammar.AssignmentAt | src/vypr/parser.py:236-243 | An assignment consumes at least one token. |
| VyprGrammar.BlockFrom | src/vypr/parser.py:267-273 | A block's statement loop stops only at one of its end kinds. |
| VyprGrammar.IfAt | src/vypr/parser.py:245-321 | An if statement consumes at least one token. |
| VyprGrammar.ThenSuiteAt | src/vypr/parser.py:252-277 | The then suite consumes at least its COLON and NEWLINE. |
| VyprGrammar.IndentedBlockAt | src/vypr/parser.py:256-277 | A block with an optional INDENT never moves the cursor back. |
| VyprGrammar.ElseAt | src/vypr/parser.py:279-319 | The else part never moves the cursor back. |
| VyprGrammar.ElseBodyAt | src/vypr/parser.py:287-319 | The else body never moves the cursor back. |
| VyprGrammar.ElseStatementsAt | src/vypr/parser.py:297-315 | The else statements never move the cursor back. |
| VyprGrammar.LoopAt | src/vypr/parser.py:323-350 | A loop statement consumes at least one token. |
| VyprGrammar.WhileLoopAt | src/vypr/parser.py:336-348 | A while loop consumes at least one token. |
| VyprGrammar.StrictSuiteAt | src/vypr/parser.py:339-347 | A suite with required COLON NEWLINE INDENT … DEDENT consumes at least one token. |
| VyprGrammar.TimesLoopAt | src/vypr/parser.py:352-384 | A times loop consumes at least one token. |
| VyprGrammar.TimesSuiteAt | src/vypr/parser.py:359-382 | The times suite consumes at least its COLON and NEWLINE. |
| VyprGrammar.TimesBodyAt | src/vypr/parser.py:363-382 | The times body never moves the cursor back. |
| VyprGrammar.ForLoopAt | src/vypr/parser.py:700-761 | A for loop consumes at least one token. |
| VyprGrammar.ForSuiteAt | src/vypr/parser.py:710-754 | The for suite consumes at least its COLON and NEWLINE. |
| VyprGrammar.ForBodyAt | src/vypr/parser.py:714-754 | The for body never moves the cursor back. |
| VyprGrammar.ForBodyFrom | src/vypr/parser.py:727-749 | The for-body loop never moves the cursor back. |
| VyprGrammar.ParametersAt | src/vypr/parser.py:401-413 | The parameter list never moves the cursor back. |
| VyprGrammar.ParametersFrom | src/vypr/parser.py:408-413 | The comma loop never moves the cursor back. |
| VyprGrammar.FunctionDeclarationAt | src/vypr/parser.py:386-484 | A function declaration consumes at least one token. |
| VyprGrammar.FunctionHeaderAt | src/vypr/parser.py:394-415 | The header FUNC name LPAREN parameters RPAREN consumes at least one token. |
| VyprGrammar.FunctionSuiteAt | src/vypr/parser.py:416-477 | The function suite consumes at least its COLON and NEWLINE. |
| VyprGrammar.FunctionBlockAt | src/vypr/parser.py:420-477 | The function block never fails and never moves the cursor back. |
| VyprGrammar.FunctionBodyFrom | src/vypr/parser.py:440-472 | The function-body loop never fails (a failing statement is skipped) and never moves the cursor back. |
| VyprGrammar.ReturnAt | src/vypr/parser.py:486-495 | A return statement consumes at least one token. |
| VyprGrammar.PrintAt | src/vypr/parser.py:497-515 | A print statement consumes at least one token. |
| VyprGrammar.PrintEndAt | src/vypr/parser.py:504-513 | The end of a print statement never moves the cursor back. |
| VyprGrammar.InputAt | src/vypr/parser.py:517-523 | An input statement consumes at least one token. |
| VyprGrammar.ExpressionStatementAt | src/vypr/parser.py:525-533 | An expression statement consumes at least one token. |
| VyprGrammarFacts.SkipDedentsAt | src/vypr/parser.py:201-205 | The run of DEDENTs from a position: every token skipped is a DEDENT and the first one left is not. |
| VyprGrammarFacts.StatementSkipsDedents | src/vypr/parser.py:201-205 | `statement` eats leading DEDENTs and retries: parsing from a run of DEDENTs is parsing from its end. |
| VyprGrammarFacts.StatementKind | src/vypr/parser.py:169-208 | A parsed statement has the kind its leading token dispatches to; a token that starts no statement is the unexpected-statement error with no move. |
| VyprGrammarFacts.IdentifierStatementChoice | src/vypr/parser.py:195-200 | After an identifier, ASSIGN gives an assignment and anything else an expression statement. |
| VyprGrammarFacts.LoopForms | src/vypr/parser.py:329-335 | `loop` parses as a for loop iff IDENTIFIER IN follows and otherwise as a times loop; a missing second lookahead and an invalid form are their errors, with no move. |
| VyprGrammarFacts.StatementEnd | src/vypr/parser.py:210-220 | The statement end succeeds iff the token is NEWLINE or EOF (DEDENT is an error here); NEWLINE is consumed, EOF is not; otherwise the statement-end error with no move. |
| VyprGrammarFacts.VarDeclarationShape | src/vypr/parser.py:222-234 | A declaration is VAR IDENTIFIER, named by that identifier, with an initial value iff ASSIGN follows; a missing name is the identifier error. |
| VyprGrammarFacts.AssignmentShape | src/vypr/parser.py:236-243 | An assignment is IDENTIFIER ASSIGN expression, to that identifier, of that expression. |
| VyprGrammarFacts.ReturnShape | src/vypr/parser.py:486-495 | A return starts at RETURN and has no value iff NEWLINE or EOF follows. |
| VyprGrammarFacts.PrintEnd | src/vypr/parser.py:504-513 | A print statement may end at NEWLINE, DEDENT or EOF and nowhere else; only the NEWLINE is consumed; otherwise the statement-end error with no move. |
| VyprGrammarFacts.PrintInputShape | src/vypr/parser.py:497-523 | A print statement prints the expression after PRINT; an input statement reads into the identifier after INPUT. |
| VyprGrammarFacts.StrictSuiteLayout | src/vypr/parser.py:339-347 | The while suite starts with COLON NEWLINE INDENT and ends right after a DEDENT; COLON NEWLINE without INDENT is the "expected INDENT" error. |
| VyprGrammarFacts.IndentedBlockLayout | src/vypr/parser.py:256-277 | Without INDENT the block is the plain statement loop; with INDENT it is the loop after the INDENT, stops at an end kind and eats one DEDENT if present. |
| VyprGrammarFacts.ThenSuiteStops | src/vypr/parser.py:252-277 | The then suite starts with COLON NEWLINE; without INDENT it stops at DEDENT, EOF or ELSE. |
| VyprGrammarFacts.ElseShape | src/vypr/parser.py:279-284 | No ELSE means no else part and no move; ELSE COLON NEWLINE is followed by the else body, which is the else block. |
| VyprGrammarFacts.ElseBodyShape | src/vypr/parser.py:287-319 | An else body that starts with IF (after an optional INDENT) is exactly that one nested if statement; any other else body is the statement loop up to DEDENT or EOF. |
| VyprGrammarFacts.IfShape | src/vypr/parser.py:245-250 | An if statement starts at IF; any other token is the "expected IF" error with no move. |
| VyprGrammarFacts.TimesBodyStops | src/vypr/parser.py:363-382 | A times body stops at EOF, VAR or FUNC, or right after a DEDENT. |
| VyprGrammarFacts.TimesBodyIndentOptional | src/vypr/parser.py:363-364 | The INDENT at the start of a times body is optional: the body parses the same without it. |
| VyprGrammarFacts.ForBodyStops | src/vypr/parser.py:727-749 | The for-body loop keeps the statements so far as a prefix and stops at DEDENT or EOF or, in an indented body, at a PRINT in column 4 or less. |
| VyprGrammarFacts.ForBodyShape | src/vypr/parser.py:714-754 | The for body is the loop after an optional INDENT, followed by one DEDENT when present; without INDENT it ends at EOF or right after a DEDENT. |
| VyprGrammarFacts.FunctionBodyStops | src/vypr/parser.py:440-472 | The body never fails, keeps the statements parsed so far, has a return only as its last statement, and without a return stops at DEDENT, FUNC or EOF. |
| VyprGrammarFacts.FunctionBodyRecovers | src/vypr/parser.py:460-467 | A statement that fails is dropped and the loop resumes one token past where it failed, or ends with the statements so far when that is past the last token. |
| VyprGrammarFacts.FunctionDeclarationShape | src/vypr/parser.py:386-484 | A function is FUNC IDENTIFIER …, named by that identifier, with a return only as the last statement of its body. |
| VyprGrammarFacts.FunctionSuiteShape | src/vypr/parser.py:416-477 | A function suite has a return only as its last statement, and it succeeds whenever COLON NEWLINE starts it. |
| VyprGrammarFacts.FunctionBlockShape | src/vypr/parser.py:420-477 | A function block always succeeds and has a return only as its last statement. |
| VyprGrammarFacts.ParametersShape | src/vypr/parser.py:401-413 | No identifier means no parameters and no move; otherwise the first parameter is that identifier and the list stops where no COMMA follows. |
| VyprGrammarFacts.ParametersFromShape | src/vypr/parser.py:408-413 | The comma loop keeps the parameters so far as a prefix and stops where no COMMA follows. |
| VyprParser.Parse | src/vypr/parser.py:763-764 | `parse` returns exactly the program production's result from the first token. |
| VyprParser.ParseProgram | src/vypr/parser.py:131-139 | Returns and moves exactly as `VyprGrammar.ProgramAt` from the old position: it stops at EOF or a DEDENT. |
| VyprParser.StatementList | src/vypr/parser.py:141-167 | Returns and moves exactly as `VyprGrammar.StatementListAt`: statements up to EOF or DEDENT, which are not consumed. |
| VyprParser.Statement | src/vypr/parser.py:169-208 | Returns and moves exactly as `VyprGrammar.StatementAt`; with `StatementSkipsDedents` and `StatementKind`, leading DEDENTs are eaten and the statement retried, and the kind is the one the leading token selects. |
| VyprParser.ParseIdentifierStatement | src/vypr/parser.py:195-200 | Returns and moves exactly as `VyprGrammar.IdentifierStatementAt`: assignment iff ASSIGN follows the identifier. |
| VyprParser.EatNewlineOrEof | src/vypr/parser.py:210-220 | Returns and moves exactly as `VyprGrammar.NewlineOrEofAt`: NEWLINE consumed, EOF accepted in place, anything else (DEDENT included) the statement-end error (`StatementEnd`). |
| VyprParser.ParseVarDeclaration | src/vypr/parser.py:222-234 | Returns and moves exactly as `VyprGrammar.VarDeclarationAt` (`VarDeclarationShape`). |
| VyprParser.ParseAssignment | src/vypr/parser.py:236-243 | Returns and moves exactly as `VyprGrammar.AssignmentAt` (`AssignmentShape`). |
| VyprParser.Block | src/vypr/parser.py:267-273 | Returns and moves exactly as `VyprGrammar.BlockFrom` with no statements yet: it stops only at one of its end kinds. |
| VyprParser.ParseIf | src/vypr/parser.py:245-321 | Returns and moves exactly as `VyprGrammar.IfAt`: IF, the condition, the then suite and the else part (`IfShape`). |
| VyprParser.ParseThenSuite | src/vypr/parser.py:252-277 | Returns and moves exactly as `VyprGrammar.ThenSuiteAt`: COLON NEWLINE and a block with optional INDENT up to DEDENT, EOF or ELSE (`ThenSuiteStops`). |
| VyprParser.ParseIndentedBlock | src/vypr/parser.py:256-277 | Returns and moves exactly as `VyprGrammar.IndentedBlockAt`: the DEDENT is eaten only when an INDENT opened the block (`IndentedBlockLayout`). |
| VyprParser.ParseElse | src/vypr/parser.py:279-319 | Returns and moves exactly as `VyprGrammar.ElseAt`: no ELSE, no move; ELSE COLON NEWLINE and the else body otherwise (`ElseShape`). |
| VyprParser.ParseElseBody | src/vypr/parser.py:287-319 | Returns and moves exactly as `VyprGrammar.ElseBodyAt`: a leading IF gives exactly one nested if (`ElseBodyShape`). |
| VyprParser.ParseElseStatements | src/vypr/parser.py:297-315 | Returns and moves exactly as `VyprGrammar.ElseStatementsAt`. |
| VyprParser.ParseStrictSuite | src/vypr/parser.py:339-347 | Returns and moves exactly as `VyprGrammar.StrictSuiteAt`: COLON NEWLINE INDENT statements DEDENT, each layout token required (`StrictSuiteLayout`). |
| VyprParser.ParseLoop | src/vypr/parser.py:323-350 | Returns and moves exactly as `VyprGrammar.LoopAt`: the form the lookahead selects, a strict WHILE loop, or the invalid-loop error (`LoopForms`). |
| VyprParser.ParseWhileLoop | src/vypr/parser.py:336-348 | Returns and moves exactly as `VyprGrammar.WhileLoopAt`: WHILE, the condition and a strict suite. |
| VyprParser.ParseTimesLoop | src/vypr/parser.py:352-384 | Returns and moves exactly as `VyprGrammar.TimesLoopAt`: LOOP, the count, TIMES and the times suite. |
| VyprParser.ParseTimesSuite | src/vypr/parser.py:359-382 | Returns and moves exactly as `VyprGrammar.TimesSuiteAt`. |
| VyprParser.ParseTimesBody | src/vypr/parser.py:363-382 | Returns and moves exactly as `VyprGrammar.TimesBodyAt`: optional INDENT, stop set {DEDENT, EOF, VAR, FUNC}, trailing DEDENT eaten when present (`TimesBodyStops`, `TimesBodyIndentOptional`). |
| VyprParser.ParseForLoop | src/vypr/parser.py:700-761 | Returns and moves exactly as `VyprGrammar.ForLoopAt`: LOOP IDENTIFIER IN, the iterable and the for suite. |
| VyprParser.ParseForSuite | src/vypr/parser.py:710-754 | Returns and moves exactly as `VyprGrammar.ForSuiteAt`. |
| VyprParser.ParseForBody | src/vypr/parser.py:714-754 | Returns and moves exactly as `VyprGrammar.ForBodyAt` (`ForBodyShape`). |
| VyprParser.ParseForStatements | src/vypr/parser.py:727-749 | Returns and moves exactly as `VyprGrammar.ForBodyFrom` from no statements (`ForBodyStops`). |
| VyprParser.ForBodyStatement | src/vypr/parser.py:742-749 | One statement of the for-body loop and the NEWLINEs after it: a failure is the loop's result; a success moves forward and leaves the loop's result unchanged. |
| VyprParser.ParseParameters | src/vypr/parser.py:401-413 | Returns and moves exactly as `VyprGrammar.ParametersAt` (`ParametersShape`). |
| VyprParser.ParseParametersFrom | src/vypr/parser.py:408-413 | Returns and moves exactly as `VyprGrammar.ParametersFrom` from the parameters already read. |
| VyprParser.ParseFunctionDeclaration | src/vypr/parser.py:386-484 | Returns and moves exactly as `VyprGrammar.FunctionDeclarationAt` (`FunctionDeclarationShape`). |
| VyprParser.ParseFunctionHeader | src/vypr/parser.py:394-415 | Returns and moves exactly as `VyprGrammar.FunctionHeaderAt`: the name and the parameter names. |
| VyprParser.ParseFunctionSuite | src/vypr/parser.py:416-477 | Returns and moves exactly as `VyprGrammar.FunctionSuiteAt` (`FunctionSuiteShape`). |
| VyprParser.ParseFunctionBlock | src/vypr/parser.py:420-477 | Returns the body `VyprGrammar.FunctionBlockAt` gives and moves to its end: the closing DEDENT is eaten only when an INDENT opened the body. |
| VyprParser.ParseFunctionBody | src/vypr/parser.py:440-472 | Returns the body `VyprGrammar.FunctionBodyFrom` gives from no statements and moves to its end (`FunctionBodyStops`, `FunctionBodyRecovers`). |
| VyprParser.FunctionBodyStatement | src/vypr/parser.py:449-467 | One statement of the function-body loop: when the loop ends here the result is the loop's; otherwise it moves forward and leaves the loop's result unchanged. |
| VyprParser.ParseReturn | src/vypr/parser.py:486-495 | Returns and moves exactly as `VyprGrammar.ReturnAt` (`ReturnShape`). |
| VyprParser.ParsePrint | src/vypr/parser.py:497-515 | Returns and moves exactly as `VyprGrammar.PrintAt` (`PrintInputShape`). |
| VyprParser.EatPrintEnd | src/vypr/parser.py:504-513 | Returns and moves exactly as `VyprGrammar.PrintEndAt` (`PrintEnd`). |
| VyprParser.ParseInput | src/vypr/parser.py:517-523 | Returns and moves exactly as `VyprGrammar.InputAt` (`PrintInputShape`). |
| VyprParser.ParseExpressionStatement | src/vypr/parser.py:525-533 | Returns and moves exactly as `VyprGrammar.ExpressionStatementAt`: leading NEWLINEs skipped, then the expression and the statement end. |
| VyprParser.ParseExpression | src/vypr/parser.py:535-537 | Returns and moves exactly as `ExprGrammar.ExpressionAt` in the Vypr dialect; `ExpressionChain` gives the left fold. |
| VyprParser.ParseLogical | src/vypr/parser.py:539-544 | Returns and moves exactly as `ExprGrammar.LogicalAt`. |
| VyprParser.ParseComparison | src/vypr/parser.py:546-560 | Returns and moves exactly as `ExprGrammar.ComparisonAt`: the first operand and the comparison loop. |
| VyprParser.ParseComparisonFrom | src/vypr/parser.py:552-559 | Returns and moves exactly as `ExprGrammar.ComparisonFrom` from the node built so far. |
| VyprParser.ParseArithmetic | src/vypr/parser.py:562-574 | Returns and moves exactly as `ExprGrammar.ArithmeticAt`: the first term and the arithmetic loop, a left fold (`ArithmeticChain`). |
| VyprParser.ParseArithmeticFrom | src/vypr/parser.py:568-573 | Returns and moves exactly as `ExprGrammar.ArithmeticFrom` from the node built so far. |
| VyprParser.ParseTerm | src/vypr/parser.py:576-588 | Returns and moves exactly as `ExprGrammar.TermAt`: the first factor and the term loop, a left fold (`TermChain`). |
| VyprParser.ParseTermFrom | src/vypr/parser.py:582-587 | Returns and moves exactly as `ExprGrammar.TermFrom` from the node built so far. |
| VyprParser.ParseFactor | src/vypr/parser.py:590-604 | Returns and moves exactly as `ExprGrammar.FactorAt`: NEWLINEs skipped, then the primary. |
| VyprParser.ParsePrimary | src/vypr/parser.py:606-663 | Returns and moves exactly as `ExprGrammar.PrimaryAt`, whose branches `PrimaryCases` and `NamePrimary` state. |
| VyprParser.ParseSigned | src/vypr/parser.py:608-614 | Returns and moves exactly as `ExprGrammar.SignedAt`: the sign applied to the following factor. |
| VyprParser.ParseParenthesized | src/vypr/parser.py:632-636 | Returns and moves exactly as `ExprGrammar.ParenthesizedAt`: the inner expression, RPAREN required. |
| VyprParser.ParseIdentifierFactor | src/vypr/parser.py:641-661 | Returns and moves exactly as `ExprGrammar.IdentifierFactorAt`: a call when LPAREN follows, otherwise the name and its property chain (`NamePrimary`). |
| VyprParser.ParseProperties | src/vypr/parser.py:651-659 | Returns and moves exactly as `ExprGrammar.PropertiesFrom` from the node built so far (`PropertiesShape`, `TwoProperties`). |
| VyprParser.ParseFunctionCall | src/vypr/parser.py:665-683 | Returns and moves exactly as `ExprGrammar.FunctionCallAt` (`CallShape`, `EmptyItems`). |
| VyprParser.ParseArrayLiteral | src/vypr/parser.py:685-698 | Returns and moves exactly as `ExprGrammar.ArrayLiteralAt` (`CallShape`, `EmptyItems`). |
| VyprParser.ParseItems | src/vypr/parser.py:674-682 | Returns and moves exactly as `ExprGrammar.ItemsAt` up to the closing kind. |
| VyprParser.ParseExpressionListFrom | src/vypr/parser.py:678-680 | Returns and moves exactly as `ExprGrammar.ExpressionListFrom` from the items already read. |
| Semantic.Chain | semantic_analyzer.py:11-27 | The chain of enclosing scopes starts at the current scope and ends at the global scope. |
| Semantic.ResolveFollowsChain | semantic_analyzer.py:20-27 | `resolve` is true iff some scope on the enclosing chain defines the name. |
| Semantic.LookupFindsNearest | semantic_analyzer.py:11-18 | `lookup` returns the entry of the nearest scope on the chain that defines the name. |
| Semantic.ResolveIffLookupFinds | semantic_analyzer.py:11-27 | `resolve` and `lookup` agree: a name resolves iff lookup finds an entry. |
| Semantic.FlattenEmpty | semantic_analyzer.py:180-182 | The argument errors are empty iff each argument's are. |
| Semantic.NoErrorsIffWellScoped | semantic_analyzer.py:152-182 | An expression reports no errors iff every identifier resolves and every call names a function with the right number of arguments. |
| Semantic.ArityMismatchReported | semantic_analyzer.py:174-178 | Calling a declared function with the wrong number of arguments reports the mismatch first. |
| Semantic.ExtendsTrans | semantic_analyzer.py:41-45 | Scope growth composes across nested visits: definitions seen before are still there. |
| Semantic.Analyzer.constructor | semantic_analyzer.py:31-34 | The analyzer starts in an empty global scope with no errors. |
| Semantic.Analyzer.Define | semantic_analyzer.py:8-9 | Define overwrites the name in the current scope only. |
| Semantic.Analyzer.EnterScope | semantic_analyzer.py:41-42 | Entering adds a fresh empty scope enclosed by the current one and makes it current. |
| Semantic.Analyzer.ExitScope | semantic_analyzer.py:44-45 | Exiting makes the enclosing scope current and changes no table. |
| Semantic.Analyzer.Error | semantic_analyzer.py:36-39 | Errors are appended in order. |
| Semantic.Analyzer.VisitExpr | semantic_analyzer.py:152-182 | Visiting an expression appends exactly its specified errors and changes no scope. |
| Semantic.Analyzer.VisitStmt | semantic_analyzer.py:47-50 | A statement visit returns to the same scope, only adds errors, and only adds to tables. |
| Semantic.Analyzer.VisitVarDeclaration | semantic_analyzer.py:61-69 | A name already resolvable is reported; otherwise it is defined in the current scope and its initial value visited. |
| Semantic.Analyzer.VisitAssignment | semantic_analyzer.py:71-75 | An undeclared target is reported, and then the value's errors. |
| Semantic.Analyzer.VisitBody | semantic_analyzer.py:81-82 | Visiting a list of statements only adds errors and table entries. |
| Semantic.Analyzer.VisitIf | semantic_analyzer.py:77-89 | The condition's errors come first, and the branches' new scopes leave the current table unchanged. |
| Semantic.Analyzer.VisitScoped | semantic_analyzer.py:80-83 | A body visited in a fresh scope leaves the current table unchanged. |
| Semantic.Analyzer.VisitLoop | semantic_analyzer.py:91-105 | The count or condition is checked first, and the body's scope leaves the current table unchanged. |
| Semantic.Analyzer.VisitForLoop | semantic_analyzer.py:107-116 | The loop variable is defined in a new scope enclosed by the current one, not in the current one. |
| Semantic.Analyzer.VisitFunctionDeclaration | semantic_analyzer.py:118-136 | A name already resolvable is reported; otherwise it is defined as a function with its parameters, which live in the body's own scope. |
| Semantic.Analyzer.Analyze | semantic_analyzer.py:184-186 | The verdict is true iff no error was recorded, and the errors are returned. |
| Semantic.AnalyzeProgram | semantic_analyzer.py:184-186 | A program passes iff its error list is empty. |
| IR.LabelNameInjective | ir_generator.py:120-123 | Distinct label counters give distinct label names. |
| IR.OperandText | ir_generator.py:325-334 | A temporary prints as its name, and a string literal prints in double quotes. |
| IR.TargetsInGrow | ir_generator.py:125-126 | A jump whose labels are present stays resolvable as code is appended. |
| IR.ClosedConcat | ir_generator.py:125-126 | Concatenating two instruction lists whose jumps target their own labels keeps that property. |
| IR.StraightIsClosed | ir_generator.py:288-309 | Code without jumps is trivially closed. |
| IR.UniqueLabelsAppend | ir_generator.py:120-126 | Appending a fresh label keeps labels unique. |
| IRGenerator.BinaryOpName | ir_generator.py:293-306 | The arithmetic operators print as one character; unmapped kinds print their enum name. |
| IRGenerator.UnaryOpName | ir_generator.py:315-320 | Only `+` and `-` are mapped; other kinds print their enum name. |
| IRGenerator.LowerExpr | ir_generator.py:288-340 | Lowering an expression only moves the temporary counter forward. |
| IRGenerator.LowerArgs | ir_generator.py:337 | One operand per lowered argument, left to right. |
| IRGenerator.AllocatesConcat | ir_generator.py:115-118 | Code allocating temporaries t..m then m..n allocates t..n. |
| IRGenerator.LowerExprAllocates | ir_generator.py:288-340 | Each operator or call writes a fresh temporary in increasing order, and its result is the last temporary allocated. |
| IRGenerator.LowerArgsAllocates | ir_generator.py:336-340 | Arguments allocate consecutive temporaries. |
| IRGenerator.AllocatesIsStraight | ir_generator.py:288-340 | Expression code has no labels or jumps. |
| IRGenerator.LowerExprOkIff | ir_generator.py:128-134 | Lowering fails iff the expression contains an array literal or property access (no visit method). |
| IRGenerator.LowerArgsOkIff | ir_generator.py:337 | Arguments lower iff each argument does. |
| IRGenerator.WithImplicitReturn | ir_generator.py:263-266 | A function body gets a trailing return iff it does not already end in one. |
| IRGenerator.IndexOf | ir_generator.py:256 | The position of a name in the ordered function table, or -1 when absent. |
| IRGenerator.Put | ir_generator.py:256 | Dict assignment: an existing name keeps its place with the new object, and a new name is appended. |
| IRGenerator.PutKeys | ir_generator.py:256 | After the assignment the keys are the old keys plus the name, mapped to the new object. |
| IRGenerator.PutIds | ir_generator.py:256 | Assigning a fresh object keeps table entries pointing at distinct objects. |
| IRGenerator.FunctionsOf | ir_generator.py:144 | The returned functions are the table's objects in table order. |
| IRGenerator.ExprCodeStraight | ir_generator.py:288-340 | Expression code is straight-line. |
| IRGenerator.IfElseShape | ir_generator.py:161-183 | `cond; CondJump(t, f); t: A; Jump e; f: B; e:` is closed when A and B are, and it is the if/else code `IfElseSeq` that `StmtCode` specifies. |
| IRGenerator.IfThenShape | ir_generator.py:175-183 | `cond; CondJump(t); t: A; e:` is closed when A is, and it is the if-only code `IfOnlySeq`. |
| IRGenerator.LoopClosed | ir_generator.py:185-249 | A loop's head, body, back jump and end label form closed code. |
| IRGenerator.WhileShape | ir_generator.py:212-230 | `s: cond; CondJump(s, s+1); body; Jump s; s+1:` is closed when the body is, and it is the while code `WhileSeq`. |
| IRGenerator.TimesShape | ir_generator.py:185-210 | `n = 0; count; s: c = n < count; CondJump(s, s+1); body; n += 1; Jump s; s+1:` is closed when the body is, and it is the times code `TimesSeq`. |
| IRGenerator.ForShape | ir_generator.py:232-249 | `it; s: c = v in it; CondJump(s, s+1); body; Jump s; s+1:` is closed when the body is, and it is the for code `ForSeq`. |
| IRGenerator.BodyCodeStep | ir_generator.py:167-168 | The code of a body's first i+1 statements is the code of the first i followed by the next statement's code, with the counters threaded through. |
| IRGenerator.MainCodeStep | ir_generator.py:136-144 | The same for the program's top-level statements. |
| IRGenerator.IfElseCode | ir_generator.py:156-183 | An if/else statement's code is the condition's code, the jump on three fresh labels, the then body and the else body, each in its `BodyCode`, laid out as `IfElseSeq`. |
| IRGenerator.IfOnlyCode | ir_generator.py:156-183 | An if without else is the condition's code, the jump on two fresh labels and the then body, laid out as `IfOnlySeq`. |
| IRGenerator.TimesCode | ir_generator.py:185-210 | A times loop is its counter's reset, the count's code from the next temporary, and the test, body, increment and back jump on two fresh labels, laid out as `TimesSeq`. |
| IRGenerator.WhileCode | ir_generator.py:212-230 | A while loop is the start label, the condition's code, the jump, the body and the back jump, laid out as `WhileSeq`. |
| IRGenerator.ForCode | ir_generator.py:232-249 | A for loop is the iterable's code, the membership test into the next temporary, the body and the back jump, laid out as `ForSeq`. |
| IRGenerator.StmtCodeOkIff | ir_generator.py:128-134 | A statement's code is defined iff the statement is lowerable: every nested expression and body has a visit method. |
| IRGenerator.BodyCodeOkIff | ir_generator.py:167-168 | A body's code is defined iff each of its statements is lowerable. |
| IRGenerator.OwnedAppend | ir_generator.py:125-126 | Appending keeps every label of a function owned by that function. |
| IRGenerator.OwnedExtend | ir_generator.py:120-123 | Recording the owner of a fresh label keeps ownership. |
| IRGenerator.NewFunctionKeepsTable | ir_generator.py:256 | Creating a function keeps the table invariant. |
| IRGenerator.NewFunctionKeepsLabels | ir_generator.py:256 | Creating a function keeps the label invariants. |
| IRGenerator.NewFunctionKeepsInv | ir_generator.py:256-257 | Creating a function keeps all generator invariants. |
| IRGenerator.LowerArgIsPrefix | ir_generator.py:337 | A failing argument makes the whole call fail. |
| IRGenerator.OutputWellFormed | ir_generator.py:136-144 | At the end, with only `main` open, the table's functions are well-formed output. |
| IRGenerator.GenerateIR | ir_generator.py:342-343 | Generation succeeds iff every statement is lowerable; then jumps are closed and labels unique per function, names distinct, non-main functions end in a return, and `main` is present. |
| IRGenerator.Generator.constructor | ir_generator.py:109-113 | Both counters start at zero with no functions. |
| IRGenerator.Generator.NewTemp | ir_generator.py:115-118 | Returns temporary t(counter) and bumps only the temporary counter. |
| IRGenerator.Generator.NewLabel | ir_generator.py:120-123 | Returns label L(counter) and bumps only the label counter. |
| IRGenerator.Generator.Emit | ir_generator.py:125-126 | Appends one instruction to the current function only. |
| IRGenerator.Generator.EmitLabel | ir_generator.py:125-126 | Appends a fresh label to the current function and records its owner. |
| IRGenerator.Generator.NewFunction | ir_generator.py:256-257 | Creates an empty function object and assigns it under its name. |
| IRGenerator.Generator.VisitExpr | ir_generator.py:288-340 | Appends exactly the lowered code of the expression and returns its result operand. |
| IRGenerator.Generator.VisitBinary | ir_generator.py:288-309 | Left, right, then a binary op into a fresh temporary. |
| IRGenerator.Generator.VisitCall | ir_generator.py:336-340 | Arguments, then a call into a fresh temporary. |
| IRGenerator.Generator.LowerVarDeclaration | ir_generator.py:146-149 | Without an initial value nothing is emitted; otherwise its code, then an assignment. |
| IRGenerator.Generator.LowerAssignment | ir_generator.py:151-154 | The value's code, then an assignment to the variable. |
| IRGenerator.Generator.LowerReturn | ir_generator.py:271-276 | A return of the value's result, or a bare return. |
| IRGenerator.Generator.LowerPrint | ir_generator.py:278-280 | The expression's code, then a print of its result. |
| IRGenerator.Generator.LowerExpressionStatement | ir_generator.py:285-286 | The expression's code and nothing else. |
| IRGenerator.Generator.LowerInput | ir_generator.py:282-283 | One input instruction into the variable. |
| IRGenerator.Generator.IfHead | ir_generator.py:156-163 | The condition's code, then labels true/end (and false) allocated in that order. |
| IRGenerator.Generator.LowerIfElse | ir_generator.py:156-183 | cond; CondJump(true, false); true: then-branch; Jump end; false: else-branch; end. The appended code and the counters after it are exactly `StmtCode`'s. |
| IRGenerator.Generator.LowerIfOnly | ir_generator.py:156-183 | cond; CondJump(true); true: then-branch; end. The appended code and the counters after it are exactly `StmtCode`'s. |
| IRGenerator.Generator.Branches | ir_generator.py:165-174 | The then-branch, the jump to the end and the else-branch, in order; each body's code is its `BodyCode`, the else body's starting where the then body's ends. |
| IRGenerator.Generator.Branch | ir_generator.py:178-183 | Label l, then the lowered body, whose code is its `BodyCode` from the current counters. |
| IRGenerator.Generator.ElseRest | ir_generator.py:169-183 | The jump to the end, the false label, the else-branch (its `BodyCode`) and the end label. |
| IRGenerator.Generator.TimesHead | ir_generator.py:186-196 | The counter set to 0, then the count's code; the counter is the next temporary and the start and end labels are the next two labels. |
| IRGenerator.Generator.LowerTimesLoop | ir_generator.py:185-210 | counter = 0; start: c = counter < count; CondJump(start, end); body; counter += 1; Jump start; end. The appended code and the counters after it are exactly `StmtCode`'s. |
| IRGenerator.Generator.WhileHead | ir_generator.py:213-219 | The start label, then the condition's code. |
| IRGenerator.Generator.LowerWhileLoop | ir_generator.py:212-230 | start: cond; CondJump(start, end); body; Jump start; end. The appended code and the counters after it are exactly `StmtCode`'s. |
| IRGenerator.Generator.EmitAll | ir_generator.py:125-126 | Appends straight-line code to the current function. |
| IRGenerator.Generator.TestedLoop | ir_generator.py:197-210 | The test, the body, the step, the back jump and the end label; the body's code is its `BodyCode` from one temporary past the current counter. |
| IRGenerator.Generator.LoopRest | ir_generator.py:202-210 | The body, the step, the back jump and the end label; the body's code is its `BodyCode` from the current counters. |
| IRGenerator.Generator.ForHead | ir_generator.py:233-237 | The iterable's code, then the start and end labels. |
| IRGenerator.Generator.LowerForLoop | ir_generator.py:232-249 | iterable; start: c = v in it; CondJump(start, end); body; Jump start; end. The appended code and the counters after it are exactly `StmtCode`'s. |
| IRGenerator.Generator.LowerFunctionDeclaration | ir_generator.py:251-269 | A new function holds the closed body ending in a return; the current function is restored unchanged. |
| IRGenerator.Generator.FinishFunction | ir_generator.py:263-269 | Adds the implicit return and switches back to the previous function. |
| IRGenerator.Generator.LowerStmt | ir_generator.py:128-134 | Each statement kind lowers as its visitor says and fails iff it is not lowerable; the appended code and the counters after it are exactly `StmtCode`'s. |
| IRGenerator.Generator.LowerBody | ir_generator.py:167-168 | Fails iff some statement is not lowerable; otherwise appends the statements' code concatenated in order (`BodyCode`), with the counters threaded through. |
| IRGenerator.Generator.Generate | ir_generator.py:136-144 | A fresh `main` collects the program's code, which is exactly `MainCode` of the top-level statements; it succeeds iff every statement lowers and returns the table's functions. |
| Render.ReturnLineKeepsValue | code_generator.py:121-125 | The corrected return line returns the value's text, or None when there is no value. |
| Render.ReturnAsWrittenDropsFalsy | code_generator.py:122-125 | As written, a falsy value (0, false, 0.0) is dropped and the function returns None. |
| Render.ReturnZeroCounterexample | src/vypr/code_generator.py:231-235 | `return 0` is rendered as `return`, returning None instead of 0. |
| Render.ReturnLinesAgreeOnTruthy | code_generator.py:121-125 | On truthy values and a missing value, both renderings agree. |
| Render.SimpleLine | src/vypr/code_generator.py:218-248 | Exactly the non-control instructions get a line, and a return's line is the corrected return line. |
| Render.SimpleLines | code_generator.py:69-131 | Straight code renders one indented line per instruction. |
| Render.SimpleSlice | code_generator.py:61-133 | A slice of straight code is straight. |
| Render.SimpleLinesConcat | code_generator.py:61-133 | Rendering concatenated straight code concatenates the lines. |
| RootCodegen.NonLabels | code_generator.py:51-56 | The count of non-label instructions is at most the length. |
| RootCodegen.LabelCountsKeys | code_generator.py:50-56 | The label table has exactly the labels of the function as keys. |
| RootCodegen.LabelCountsValue | code_generator.py:50-56 | A label's entry is the number of non-label instructions before its last occurrence. |
| RootCodegen.CountLabels | code_generator.py:50-56 | The label-table loop computes the label table. |
| RootCodegen.RunFromFuelMonotone | code_generator.py:61-133 | Once the walk finishes, more fuel changes nothing. |
| RootCodegen.RunFromSimple | code_generator.py:61-133 | Straight code finishes iff given one iteration per instruction, and renders one line each. |
| RootCodegen.WhileTrueNeverFinishes | code_generator.py:88-94 | A loop whose jump goes back never finishes, whatever the fuel. |
| RootCodegen.WhileTrueCycle | code_generator.py:88-110 | From every position of that loop the walk never finishes. |
| RootCodegen.WalkStep | code_generator.py:61-133 | One loop iteration keeps the walk invariant. |
| RootCodegen.WalkEnd | code_generator.py:61-133 | On leaving the loop, the lines so far are the walk's result. |
| RootCodegen.FunctionLinesSimple | code_generator.py:32-133 | A straight function renders as its header and one line per instruction. |
| RootCodegen.FunctionsLinesSnoc | code_generator.py:17-18 | One more function appends its lines. |
| RootCodegen.FunctionsLinesStuck | code_generator.py:17-18 | A function that does not finish stops the rest. |
| RootCodegen.FunctionsLinesSimple | code_generator.py:17-18 | Straight functions all finish and give header plus one line per instruction each. |
| RootCodegen.CodeGenerator.constructor | code_generator.py:5-7 | Starts with the functions and an empty output. |
| RootCodegen.CodeGenerator.EmitStep | code_generator.py:62-133 | One loop iteration appends the step's lines and moves to its next index. |
| RootCodegen.CodeGenerator.Walk | code_generator.py:58-133 | The walk appends exactly the specified lines and reports whether it finished. |
| RootCodegen.CodeGenerator.GenerateFunction | code_generator.py:32-133 | Header, `pass` for an empty body, or the walk. |
| RootCodegen.CodeGenerator.GenerateFunctions | code_generator.py:17-18 | Every function in table order. |
| RootCodegen.CodeGenerator.GeneratePythonCode | code_generator.py:9-26 | The text is produced iff every walk finishes, and is then the output joined with newlines. |
| VyprCodegen.Positions | src/vypr/code_generator.py:79-82 | Every recorded label position lies inside the list and holds that label. |
| VyprCodegen.PositionsOfLabels | src/vypr/code_generator.py:79-82 | Exactly the function's labels are recorded, each at its last occurrence. |
| VyprCodegen.PositionOfUniqueLabel | src/vypr/code_generator.py:79-82 | With unique labels, each label's position is where it stands. |
| VyprCodegen.LastJumpFinds | src/vypr/code_generator.py:105-109 | The end label is the target of the last jump strictly between the true and false labels, or none without a jump. |
| VyprCodegen.NextOtherLabel | src/vypr/code_generator.py:174-178 | The if-only end lies between its start and the end of the list. |
| VyprCodegen.NextOtherLabelFinds | src/vypr/code_generator.py:174-178 | It is the first label other than the true label, or the end of the list. |
| VyprCodegen.EndPos | src/vypr/code_generator.py:144-146 | The else-branch end lies within the list. |
| VyprCodegen.NextAfterNestedIfResumes | src/vypr/code_generator.py:368-394 | Resumes after the end label of a nested if-else, and otherwise at the next instruction. |
| VyprCodegen.ProcessSingleLevels | src/vypr/code_generator.py:218-259 | Lines carry the current indentation; a for start adds a level, and a for end removes one but never goes below 1. |
| VyprCodegen.ForLoopRestoresLevel | src/vypr/code_generator.py:250-257 | A for start followed by its end restores the indentation level. |
| VyprCodegen.FormatLines | src/vypr/code_generator.py:344-366 | At most one line, present exactly for the renderable instructions. |
| VyprCodegen.NestedIf | src/vypr/code_generator.py:282-342 | A nested if leaves the indentation level where it found it. |
| VyprCodegen.NestedBranch | src/vypr/code_generator.py:303-342 | A nested branch leaves the indentation level where it found it. |
| VyprCodegen.BodyLines | src/vypr/code_generator.py:70-216 | A rendered body has at least one line (`pass` when nothing else). |
| VyprCodegen.FunctionCode | src/vypr/code_generator.py:261-271 | The header line first; an empty function is header plus `pass`. |
| VyprCodegen.NonMain | src/vypr/code_generator.py:32-33 | The functions written before `main` are none of them named `main`. |
| VyprCodegen.MainOf | src/vypr/code_generator.py:49-50 | The table's `main` function. |
| VyprCodegenProps.BodySimpleStep | src/vypr/code_generator.py:207-212 | A renderable instruction gives its line and moves to the next. |
| VyprCodegenProps.BodyStraight | src/vypr/code_generator.py:207-212 | A straight run renders one line per instruction. |
| VyprCodegenProps.TopBranchSkips | src/vypr/code_generator.py:117-121 | Jumps and labels in a branch print nothing. |
| VyprCodegenProps.TopBranchStraight | src/vypr/code_generator.py:116-134 | A straight true branch renders its lines. |
| VyprCodegenProps.IfOnlyStraight | src/vypr/code_generator.py:185-192 | A straight if-only body renders its lines. |
| VyprCodegenProps.BodyIfElseStep | src/vypr/code_generator.py:99-168 | An if-else jump renders `if`, the true branch, `else`, the false branch, and resumes after the end label. |
| VyprCodegenProps.PositionOfSoleLabel | src/vypr/code_generator.py:79-82 | A label occurring once is recorded at its position. |
| VyprCodegenProps.IfElseLayout | ir_generator.py:161-183 | The IR generator's if-else layout, instruction by instruction. |
| VyprCodegenProps.ThreeLabels | src/vypr/code_generator.py:79-82 | The three labels of an if-else are recorded at their positions. |
| VyprCodegenProps.IfElseShapeAt | src/vypr/code_generator.py:100-109 | In that layout the end label is the target of the true branch's jump. |
| VyprCodegenProps.IfElseTrueBranch | src/vypr/code_generator.py:116-134 | The straight true branch renders its lines. |
| VyprCodegenProps.IfElseFalseBranch | src/vypr/code_generator.py:148-161 | The straight false branch renders its lines. |
| VyprCodegenProps.IfElseWalk | src/vypr/code_generator.py:99-168 | The if-else block renders `if`, true lines, `else`, false lines. |
| VyprCodegenProps.IfElseStraight | src/vypr/code_generator.py:99-168 | With straight branches, the same at any level. |
| VyprCodegenProps.IfElseBody | src/vypr/code_generator.py:70-216 | The function body of that layout is the if-else block. |
| VyprCodegenProps.IfLinesAtOne | src/vypr/code_generator.py:112 | The `if` line at level 1. |
| VyprCodegenProps.IfElseReconstructed | src/vypr/code_generator.py:70-216 | The IR of `if c: A else: B` with straight A, B renders back as `if c:`, A, `else:`, B, the branches indented one level more. |
| VyprCodegenProps.BodyIfOnlyStep | src/vypr/code_generator.py:170-199 | An if-only jump renders `if` and its body, and resumes at the next other label. |
| VyprCodegenProps.IfOnlyEnd | src/vypr/code_generator.py:174-178 | In the if-only layout the body ends at the end label. |
| VyprCodegenProps.IfOnlyWalk | src/vypr/code_generator.py:170-199 | The if-only block renders `if` and its body. |
| VyprCodegenProps.BodyLastLabel | src/vypr/code_generator.py:92-94 | A trailing label prints nothing. |
| VyprCodegenProps.IfOnlyLayout | ir_generator.py:175-183 | The IR generator's if-only layout, instruction by instruction. |
| VyprCodegenProps.IfOnlyReconstructed | src/vypr/code_generator.py:70-216 | The IR of `if c: A` with straight A renders back as `if c:` and A indented. |
| VyprCodegenProps.BodyForStartStep | src/vypr/code_generator.py:250-252 | A for start renders its `for` line and raises the level. |
| VyprCodegenProps.BodyForEndStep | src/vypr/code_generator.py:254-257 | A for end prints nothing and lowers the level. |
| VyprCodegenProps.ForBlockWalk | src/vypr/code_generator.py:207-212 | A for block renders `for` and its indented body. |
| VyprCodegenProps.ForBodyRest | src/vypr/code_generator.py:207-212 | The for body renders at the inner level, then the walk continues outside. |
| VyprCodegenProps.ForLoopWalk | src/vypr/code_generator.py:207-212 | A for loop followed by straight code renders `for`, its body indented, then the rest. |
| VyprCodegenProps.ForLineAtOne | src/vypr/code_generator.py:251 | The `for` line at level 1. |
| VyprCodegenProps.ForLoopLayout | src/vypr/code_generator.py:250-257 | The for-loop IR layout, instruction by instruction. |
| VyprCodegenProps.ForLoopBody | src/vypr/code_generator.py:70-216 | The body of a for loop followed by straight code. |
| VyprCodegenProps.ForLoopReconstructed | src/vypr/code_generator.py:70-216 | `for v in it: A` then B renders back as the `for` line, A indented, then B. |
| VyprGenerator.LabelPositions | src/vypr/code_generator.py:79-82 | The position loop computes the label positions. |
| VyprGenerator.FindEndLabel | src/vypr/code_generator.py:105-109 | The backwards search finds the last jump of the true branch. |
| VyprGenerator.FindIfOnlyEnd | src/vypr/code_generator.py:174-178 | The forward search finds the next other label. |
| VyprGenerator.FindNextInstructionAfterNestedIf | src/vypr/code_generator.py:368-394 | The resume position after a nested if. |
| VyprGenerator.NestedIfParts | src/vypr/code_generator.py:286-342 | A nested if-else is its `if` line, true lines, `else`, false lines. |
| VyprGenerator.BodyFromStep | src/vypr/code_generator.py:85-212 | The body walk is one step's lines followed by the walk from the next position. |
| VyprGenerator.BodyWalkStep | src/vypr/code_generator.py:85-212 | One walk iteration keeps the loop invariant. |
| VyprGenerator.MainOfFirst | src/vypr/code_generator.py:49-50 | The first function named `main` is the table's `main`. |
| VyprGenerator.NonMainPartsFails | src/vypr/code_generator.py:32-46 | A non-main function that diverges makes the program fail. |
| VyprGenerator.NonMainPartsStaysNone | src/vypr/code_generator.py:32-46 | Once failed, the parts stay failed. |
| VyprGenerator.CodeLines.constructor | src/vypr/code_generator.py:35-37 | A code list starts with its header. |
| VyprGenerator.CodeGenerator.constructor | src/vypr/code_generator.py:5-7 | Holds the IR functions. |
| VyprGenerator.CodeGenerator.ProcessSingleInstruction | src/vypr/code_generator.py:218-259 | Appends the instruction's line, if any, and returns the new level. |
| VyprGenerator.CodeGenerator.FormatInstruction | src/vypr/code_generator.py:344-366 | Appends the instruction's line, if any. |
| VyprGenerator.CodeGenerator.ProcessNestedIf | src/vypr/code_generator.py:282-342 | Appends exactly the nested-if lines when the nested recursion finishes. |
| VyprGenerator.CodeGenerator.ElseBranch | src/vypr/code_generator.py:323-342 | Appends the nested else branch's lines. |
| VyprGenerator.CodeGenerator.NestedBranchLoop | src/vypr/code_generator.py:303-320 | Appends the nested branch's lines. |
| VyprGenerator.CodeGenerator.TopBranchLoop | src/vypr/code_generator.py:116-161 | Appends a top-level branch's lines and returns its level. |
| VyprGenerator.CodeGenerator.IfOnlyBranchLoop | src/vypr/code_generator.py:185-192 | Appends an if-only body's lines. |
| VyprGenerator.CodeGenerator.IfElseBlock | src/vypr/code_generator.py:99-168 | Appends an if-else block and returns where the walk resumes. |
| VyprGenerator.CodeGenerator.IfOnlyBlock | src/vypr/code_generator.py:170-199 | Appends an if-only block and returns where the walk resumes. |
| VyprGenerator.CodeGenerator.BodyStep | src/vypr/code_generator.py:85-212 | One walk iteration, as the step specification says. |
| VyprGenerator.CodeGenerator.BodyWalk | src/vypr/code_generator.py:84-212 | The walk appends exactly the specified body lines when it finishes. |
| VyprGenerator.CodeGenerator.GenerateFunctionBody | src/vypr/code_generator.py:70-216 | The body lines, plus `pass` when only the header was written. |
| VyprGenerator.CodeGenerator.FunctionCodeLines | src/vypr/code_generator.py:261-271 | `generate_function_code` returns the specified function code. |
| VyprGenerator.CodeGenerator.FindMain | src/vypr/code_generator.py:16 | Finds `main` iff the table has one. |
| VyprGenerator.CodeGenerator.GeneratePythonCode | src/vypr/code_generator.py:9-68 | The program text is produced iff every function's walk finishes, and is its parts joined with newlines. |
| VyprProgram.AllWrittenAppend | src/vypr/code_generator.py:32-46 | One more non-main function is written iff it and the earlier ones are. |
| VyprProgram.PairedAppend | src/vypr/code_generator.py:45-46 | One more function adds its code and a blank part. |
| VyprProgram.NonMainPartsShape | src/vypr/code_generator.py:32-46 | The non-main loop succeeds iff every non-main function is written, giving code and blank parts in table order. |
| VyprProgram.ProgramStartsWithHeader | src/vypr/code_generator.py:22-23 | The program starts with the header comment and a blank line. |
| VyprProgram.ProgramDefined | src/vypr/code_generator.py:9-68 | The program is written iff every non-main function is, and `main` too when present. |
| VyprProgram.ProgramLayout | src/vypr/code_generator.py:19-68 | Header, non-main functions in order, then `main` and the call guard iff there is a `main`, else a trailing blank. |
| VyprProgram.MainCalledIffPresent | src/vypr/code_generator.py:49-65 | The program ends by calling `main()` iff the table has a `main`. |
| VyprProgram.FunctionPartStartsWithHeader | src/vypr/code_generator.py:37-45 | Each non-main function's part starts with its own `def` line. |
| VyprProgram.NonMainMembers | src/vypr/code_generator.py:32-33 | The functions written before `main` are exactly the table's other functions. |
| VyprProgram.NonMainCount | src/vypr/code_generator.py:32-33 | With distinct names, one fewer function than the table is written before `main` when there is a `main`. |

## Left out

- The command-line drivers (`vypr_compiler.py`, `bin/vypr_compiler.py`), the `compiler.py` glue, the tests and all `print` debugging output. They are I/O around the passes.
- src/vypr/ir_generator.py is not part of this model. The Vypr code generator is modelled over the IR of `ir_generator.py`, extended with the `ForLoopStartIR`/`ForLoopEndIR` instructions it renders.
- `Lexer.get_next_token` of `src/vypr/lexer.py` (lines 197-346). The Vypr `tokenize` never calls it.
- Float values. A FLOAT token carries its lexeme, because `float(...)` and Python's float printing are not modelled. Character classes are ASCII only; `isdigit`, `isalpha` and `isspace` on other Unicode characters are not modelled.
- Exception messages. Errors are tagged values carrying the reason and the line and column, not the formatted text.
- `add_runtime_support` in both code generators returns nothing, so the modelled programs never contain a runtime part. It has no member of its own.
- `format_instruction` is given the indentation string in the source. The model passes the level instead, because every caller passes `"    " * level`.
- RootCodegen.CodeGenerator.Walk: a jump backwards makes the source loop for ever. The model bounds the walk by `fuel` and reports `finished == false` instead.
- VyprGenerator.CodeGenerator.BodyWalk: a loop shaped like an `if` with a back edge would make the source loop for ever or recurse until Python's recursion limit. The model bounds walk iterations and nested calls by `fuel` and reports divergence instead.
- RootLexer.Tokenize: the contract states only that the list ends in exactly one EOF and has no more DEDENTs than INDENTs. It does not pin down the exact token list, and the dropped DEDENTs make the two counts unequal.
- VyprLexer.Tokenize: the contract states the shape of the list (one EOF, a NEWLINE before it, balanced INDENT/DEDENT, INDENTs only after NEWLINEs). It does not state the exact list.
- RootParser: `parser.py` takes `TokenType` from `lexer.py`, whose enum has no CONCAT, DOT, LBRACKET or RBRACKET. As written, the arithmetic loop's test (parser.py:488) and the array-literal test (parser.py:558) therefore raise AttributeError (second finding). Apart from `RootTokenTypes`, the model reads `parser.py` against the Vypr enum in `Tokens`.
- Render.SimpleLine: a return whose value Python treats as false (`0`, `False`, `0.0`) is rendered with its value, where the source's `if instr.value:` drops it (first finding). The members below render returns through it and differ from the source in the same way.
- RootCodegen.CodeGenerator.Walk: renders such a return with its value (see `Render.SimpleLine`); so do `RootCodegen.Step`, `RootCodegen.RunFrom` and `RootCodegen.FunctionLines`.
- RootCodegen.CodeGenerator.GenerateFunction: renders such a return with its value (see `Render.SimpleLine`).
- RootCodegen.CodeGenerator.GeneratePythonCode: renders such a return with its value (see `Render.SimpleLine`); so does `RootCodegen.ProgramLines`.
- VyprCodegen.FormatLines: renders such a return with its value (see `Render.SimpleLine`); so do `VyprCodegen.BodyFrom`, `VyprCodegen.FunctionCode` and `VyprCodegen.ProgramParts`.
- VyprGenerator.CodeGenerator.FormatInstruction: renders such a return with its value (see `Render.SimpleLine`).
- VyprGenerator.CodeGenerator.GeneratePythonCode: renders such a return with its value (see `Render.SimpleLine`), as do the other `VyprGenerator.CodeGenerator` methods that walk a body.
- Semantic.Analyzer.VisitStmt: statement visits state that errors and table entries only grow, and `VisitExpr` states the exact errors. Nested statements' exact error lists are not stated.

## Findings

| source | as written | input that shows it | evidently intended | confidence | as-written member | corrected member |
|---|---|---|---|---|---|---|
| code_generator.py:122-125 and src/vypr/code_generator.py:232-235 | `if instr.value:` tests the returned operand for truth, so a falsy constant renders as a bare `return` | `func f(): return 0` is lowered to a return of the constant 0 and rendered as `return`, so `f()` returns None | every returned operand is rendered (`return 0`); only a missing value gives a bare `return` | high, not executed | Render.ReturnZeroCounterexample | Render.ReturnLineKeepsValue |
| parser.py:1, 488 and 558 | `parser.py` takes `TokenType` from `lexer.py`, whose enum has no CONCAT, DOT, LBRACKET or RBRACKET, so reading `TokenType.CONCAT` or `TokenType.LBRACKET` raises AttributeError | any program with an expression, such as `print 1`: the arithmetic loop's test builds `(PLUS, MINUS, CONCAT)` after the first term and raises | the token kinds of `src/vypr/lexer.py`, which define all four | high, not executed | RootTokenTypes.ArithmeticTestAsWritten | RootTokenTypes.ArithmeticTestCorrected |
