# Verification of pgcov

pgcov measures how much of a PostgreSQL code base its SQL tests reach. It rewrites function bodies so that every
statement sends a notification when it has run, runs the tests in a pool of workers, collects the notifications,
counts them per source position and draws reports. This project models those parts in Dafny 4.11 and proves what
they promise, each for itself and along the whole chain. `dafny verify dfyconfig.toml` checks it.

## How the project is laid out

| file | what it models |
|---|---|
| `Basics.dfy` | options, decimal numerals as Go prints and reads them, sums |
| `SignalCodec.dfy` | signal IDs, position keys, the SQL text that carries a signal, and the server's reading of it |
| `Splicing.dfy` | inserting chunks into a sequence and taking them out again; used for text and for tokens |
| `Segmentation.dfy` | the instrumenter's decisions on token kinds: segments, terminals, where signals go |
| `Tokens.dfy` | tokens, and what is taken for granted about the lexer |
| `Parser.dfy` | statements, languages and bodies |
| `Instrumenter.dfy` | the rewriting itself, with the builder and the variables its closure updates |
| `InstrumenterTheorems.dfy` | erasure, points, SQL-language functions |
| `Plpgsql.dfy` | a structured PL/pgSQL fragment and instrumentation of statements |
| `Correspondence.dfy` | the token loop does to a token list what statement-level instrumentation does to a program |
| `Meaning.dfy` | what programs do, with and without signals |
| `Firing.dfy` | an instrumented program on its own terms: what it does and how often it signals, for every program |
| `Staleness.dfy` | which programs instrumentation leaves as they are: an exact condition on the program, both ways |
| `Signalling.dfy` | where in a run the signals are sent, and for which arm of a branch |
| `Relexing.dfy` | the tokens of an instrumented body |
| `Loading.dfy` | from the text of a statement to the program the server runs |
| `Limits.dfy`, `Quoting.dfy` | signals in places one might not expect, bodies that do not survive their quoting; each with its exact condition |
| `CoverageValues.dfy` | hit counts as values: counting, seeding, merging, percentages |
| `Coverage.dfy`, `Collector.dfy` | the objects that hold and update them |
| `HtmlReport.dfy`, `LcovReport.dfy` | ranges, overlap, rendering; lines |
| `WorkerPool.dfy` | the pool as a state machine over all interleavings |
| `Listener.dfy` | the buffered listener and the idle window |
| `EndToEnd.dfy` | the points of several files, what a collector holds of them, and the bytes the report highlights |
| `Payloads.dfy` | what the signals of a running body carry |
| `Executions.dfy` | runs of many loaded functions, what the server delivers of their signals, and the highlighted source |
| `LineTotals.dfy` | the lines of an LCOV report and the signals behind them |

## Main results

* **Statements.** Type, body, language and place of a statement follow from its first words and its constants
  (`ClassifiedBy`, `StatementBody`, `StatementPlace`).
* **Text.** Erasing the signals from an instrumented file gives the file back (`FileErasure`). Coverage points are
  disjoint slices of the source, in order, and the injected chunks are their signals one for one.
* **Meaning.** The flat, single-pass rewriting of tokens is the rewriting of a structured program, comments included
  (`BodyCorrespondence`). What the server loads from the instrumented statement - constant read, tokens, parse - goes
  the same way from every state as what it loads from the original: same exit, variables, tables, result and FOUND,
  through the same statements (`StatementKeepsMeaning`) - unless the program is stale.
* **Which programs change.** EXECUTE leaves FOUND alone but not the row count that GET DIAGNOSTICS reads. Given which
  statements read the row count and which set it whatever it was, a program keeps its meaning on every such server and
  from every state if and only if no reader can be reached behind a signal - its own in front of it, or that of an
  earlier statement on some path through branches, loops and handlers - with no setter completed in between
  (`PreservedIff`, `BodyPreservedIff`). That is decided on the program's text. `RowCountOverwritten` is a program that
  changes; `OverwrittenInTime` is one that does not, as UPDATE is known to set the row count.
* **Signals.** Every instrumented program, stale or not, sends a segment's signal exactly as often as it reaches the
  segment's terminal or completes its last statement (`CodeEchoes`, `CodeSignalCount`, `RunSignalCount`). The signal of
  a segment with a terminal stands directly in front of the terminal (`SignalsInFront`). A branch sends signals of the
  arm it takes, a block of its statements and the handler it takes, and either possibly one of its own
  (`BranchNotifies`, `BlockNotifies`, `CompoundSignal`).
* **Quoting.** The server reads an instrumented body back from its statement if and only if no segment of the body
  opens with another word than a structural keyword, or the body is dollar-quoted with a tag that occurs neither in the
  channel's name nor in the path of the file (`BodyReadBack`).
* **Protocols.** The pool loses no test, overflows no channel, sends nothing to a closed one and cannot hang, and every
  test is returned with the status its worker saw it end with (`StatusesReported`); the listener conserves signals, its
  timeout is an idle window that every received signal restarts (`IdleWindow`), and exactly when `Close` breaks it is
  known (`SendOnClosedIff`).
* **Counts.** Collecting is counting, in any order; merging is a commutative monoid and a homomorphism from
  collecting; no signal lowers the covered fraction.
* **Reports.** Overlap resolution gives every byte to the first range that contains it, rendering shows the source
  unchanged, and a line of the LCOV report has the signals of the executable points that begin on it
  (`LineCountsSignals`).
* **The chain.** Load instrumented functions of several files, run them any number of times, stale or not, and report.
  Every byte of a segment is highlighted, with a count that is positive if and only if some signal of the segment was
  not rolled back, never exceeds the number of times the segment was completed or its terminal reached, and is that
  number if the server delivers every signal (`HighlightIsExecutions`). Equal notifications of one transaction may be
  collapsed across all calls in it: three calls in one transaction may paint 1. If no function is stale, the number is
  that of the original runs (`CompletedAsOriginal`).

## Where code and documentation differ

The model follows the code. The repository's README.md (line 301) says that statements of SQL-language functions are
wrapped in a CTE; the code puts a `SELECT pg_notify(...)` statement in front of them, and so does the model. The
comment on `instrumentBody` justifies EXECUTE by FOUND alone; the row count is what it does not mention. The code
comment at `instrumenter.go:143-146` promises coverage on successful execution only; a segment that is nothing but an
empty ELSE arm is signalled whenever the IF completes, whichever arm was taken (`EmptyElseSignalled`). The same comment
says that nothing executes after a terminal; RETURN NEXT and RETURN QUERY are terminals for the code although execution
goes on behind them, so their signal stands in front of them and is sent even if they then raise. A segment that is
only EXIT or CONTINUE never completes, so it has a coverage point that no test can cover (`ExitNeverCompleted`,
`NeverCovered`). `Close` in `internal/database/listener.go` is said to stop the listener; it runs UNLISTEN on the
connection the receive loop has given up, and a notification that is read then is sent on a channel the loop may
already have closed, which ends the program (`SendOnClosed`).

## Assumptions

* The lexer, github.com/pashagolub/pglex, is not part of this model. It is a function from text to tokens that are
  slices of the text, in order and without overlap, a `;` being one character long, such that lexing the text from a
  token up to the next `;` or the end gives the same tokens counted from there (`LexesSegments`). Nothing is assumed
  about which statement group a `;` belongs to. That the assumption can be met is proved (`ContractCanBeMet`).
* Tokens are not empty and do not begin with white space (`TokenFits`).
* `InstrumentedBodyLexes` and everything about loaded functions further assume that a signal put in at a token boundary
  is read as tokens of its own (`ReadsSignals`), and that the server's parser, a parameter, takes the tokens of the
  original for the original program and each signal's tokens for a statement of its own (`Parses`). That all this holds
  together, for a dollar-quoted function with a signal, is proved (`AssumptionsCanBeMet`, `ChainCanBeMet`).
* Which statements read the row count and which set it are parameters, and so is the server: any server will do on which
  no other statement depends on the row count and on which those overwrite it when they complete (`Respects`).
* Of the signals all runs send, what is rolled back is a parameter (`KeptOf`); of the others, no more copies arrive than
  were kept, and at least one of each payload in all (`Delivered`).
* Text is a sequence of characters, one for each byte. Case folding is that of ASCII.

## Model

| member | source | states |
|---|---|---|
| SignalCodec.ParseSignalID | internal/instrument/location.go:18-75 | the backward scan for the last two colons returns exactly the location an ID means, or the error of the first part that is wrong; numbers are 64-bit |
| SignalCodec.PartsOfID | internal/instrument/location.go:18-75 | of three parts the last two are numbers that are not negative, and the point has these; otherwise the first part that is wrong gives its own error |
| SignalCodec.OnePart | internal/instrument/location.go:18-35 | an ID with fewer than two colons has too few parts |
| Decimal.AtoiIs | internal/instrument/location.go:69-75 | a numeral is one sign at most and digits; it is read as what it says, with a sign, with zeros in front, up to the ends of 64 bits; nothing else is read |
| Decimal.OneMoreDigit | internal/instrument/location.go:69-75 | digits are decimal: one more makes ten times as much and the digit |
| SignalCodec.SignalIDRoundTrip | internal/instrument/location.go:10-61 | parsing a formatted ID gives file, start and length back, for every file name (colons and quotes included) and all values from 0 to 2^63-1 |
| SignalCodec.SignalIDInjective | internal/instrument/location.go:10-12 | two coverage points with the same ID are the same point |
| SignalCodec.PositionKeyRoundTrip | internal/coverage/model.go:198-232 | parsing a formatted position key gives both numbers back |
| SignalCodec.PartsOfKey | internal/coverage/model.go:208-232 | a key is cut at its first colon, and both parts must be numbers that are not negative |
| SignalCodec.ReadDoubled | internal/instrument/instrumenter.go:178 | a text with its quotes doubled, between quotes, is read by the server as that text |
| SignalCodec.ExecuteRoundTrip | internal/instrument/instrumenter.go:414-417 | reading the EXECUTE literal and then the literals of pg_notify gives channel and signal ID back, if and only if the channel has no quote |
| SignalCodec.NotifyRoundTrip | internal/instrument/instrumenter.go:178-203 | the same for the single layer of SQL-language functions |
| SignalCodec.SignalEndToEnd | internal/instrument/instrumenter.go:414-417 | from the injected statement to the coverage point: decode both literals, parse the payload, and the original file, start and length come out |
| Parser.DelimiterAgreesWithBody | internal/parser/parse.go:217-265 | `unquoteString` and `bodyDelimiterLen` agree on where the body is if and only if the constant is terminated |
| Parser.UnquotedIs | internal/parser/parse.go:217-265 | of a constant in dollar quotes with any tag, in quotes or in E-quotes, the body is the text between the delimiters, and the delimiter length that of the opening one |
| Parser.EqualFoldIs | internal/parser/parse.go:154-156 | two words are the same if and only if they are of one length and agree character by character up to the case of letters |
| Parser.ClassifiedBy | internal/parser/parse.go:110-150 | a statement is a function if and only if its words open with CREATE FUNCTION, CREATE OR FUNCTION or CREATE OR REPLACE FUNCTION; likewise procedures, triggers and views; a DO block if and only if the first word is DO; unknown if and only if there is no word |
| Parser.BodyTokenAfterAs | internal/parser/parse.go:182-195 | the body of a function is the string constant behind the first AS that is followed by one |
| Parser.ExtractBody | internal/parser/parse.go:182-195 | body text and offset are those of that constant, or empty and 0 |
| Parser.BodyTokenAfterDo | internal/parser/parse.go:199-213 | the body of a DO statement is the first string constant behind the first DO; none if there is none behind it |
| Parser.ExtractDOBody | internal/parser/parse.go:199-213 | body text and offset are those of that constant, or empty and 0 |
| Parser.ExtractLanguage | internal/parser/parse.go:160-178 | the language is the lower-cased, unquoted word behind the first LANGUAGE; empty if that is the last token or there is none |
| Parser.LanguageNameIs | internal/parser/parse.go:269-271 | the name is the word without the quote marks around it, each letter in lower case |
| Parser.CalculateLineNumber | internal/parser/parse.go:37-52 | 1 plus the newlines before the offset, with offsets clamped to the text |
| Parser.NewlinesCounted | internal/parser/parse.go:45-50 | these are the indices in front of the offset at which a newline stands |
| Parser.SplitAndClassify | internal/parser/parse.go:56-106 | the loop records, in order, the statement of every token group that is not comments only; what it records is stated by the next four rows |
| Parser.StatementsComplete | internal/parser/parse.go:60-72 | every group with a token that is no comment gives its statement, and there are no others |
| Parser.SignificantOfParts | internal/parser/parse.go:63-68 | exactly the comments are left out for classification, and the other tokens keep their order |
| Parser.StatementPlace | internal/parser/parse.go:73-87 | a statement is the text from its first token to the end of its last, with the lines on which both ends stand |
| Parser.StatementBody | internal/parser/parse.go:89-100 | if the words open with CREATE [OR [REPLACE]] FUNCTION or PROCEDURE the body is the first constant behind an AS; if they open with DO it is the first constant behind that, and the language is plpgsql unless one is named; any other statement has neither |
| Parser.StatementsLaid | internal/parser/parse.go:56-106 | the statements are non-empty, disjoint slices of the file, in order |
| Parser.ClosedBodyInPlace | internal/parser/parse.go:182-265 | a statement whose body constant is terminated has its body at `BodyStart`, byte for byte: what the splice rests on |
| EndToEnd.ParsedFile | internal/parser/parse.go:56-106 | the statements of any file with terminated bodies meet everything the instrumenter's theorems ask for |
| Segmentation.FindTerminalIsFirst | internal/instrument/instrumenter.go:324-355 | the scan finds the first RETURN or fatal RAISE of a segment, and none only if there is none; a RAISE with a message level is skipped together with the level |
| Segmentation.FindTerminalInSlice | internal/instrument/instrumenter.go:324-355 | scanning the text of a segment on its own finds the same token as scanning the body between the same bounds |
| Segmentation.TerminalAtIs | internal/instrument/instrumenter.go:324-355 | a terminal is RETURN, or RAISE whose next token that is no comment is none of NOTICE, WARNING, INFO, LOG and DEBUG |
| Segmentation.AfterBeginIs | internal/instrument/instrumenter.go:243-249 | a PL/pgSQL body is read from behind its first BEGIN, and not at all without one |
| Segmentation.PlanMarksExactly | internal/instrument/instrumenter.go:133-273 | signals go to exactly the maximal runs between semicolons that do not open with BEGIN, END, LOOP, DECLARE or EXCEPTION: in SQL in front of them, in PL/pgSQL in front of their first terminal or, without one, behind them |
| Segmentation.PlanFromInOrder | internal/instrument/instrumenter.go:236-273 | segments follow each other, and each signal stays inside or right behind its own |
| Segmentation.PlanEmptyIff | internal/instrument/instrumenter.go:294-318 | a body gets no signal if and only if each of its segments opens with one of these five words |
| Instrumenter.IsExecutableSegment | internal/instrument/instrumenter.go:294-318 | a segment is executable if and only if it has a token that is no comment and the first of these is none of BEGIN, END, LOOP, DECLARE and EXCEPTION |
| Instrumenter.FindTerminalPos | internal/instrument/instrumenter.go:324-355 | the byte position of the first terminal, or -1 |
| Instrumenter.IndentBefore | internal/instrument/instrumenter.go:370-384 | the blanks before a position, if nothing else precedes it on its line |
| Instrumenter.LineIndentIs | internal/instrument/instrumenter.go:370-384 | the maximal run of blanks and tabs that ends at the position, if a line begins where it begins; empty otherwise |
| Instrumenter.BodyWriter.constructor | internal/instrument/instrumenter.go:130-132 | nothing written, nothing recorded |
| Instrumenter.BodyWriter.WriteInside | internal/instrument/instrumenter.go:207-218 | the gap and the segment are written with the signal in the middle, and the written position moves to the segment's end |
| Instrumenter.BodyWriter.WriteBehind | internal/instrument/instrumenter.go:219-233 | gap, segment and the `;` that closes it are written, then the signal; the written position moves behind the `;` |
| Instrumenter.BodyWriter.EmitSegment | internal/instrument/instrumenter.go:147-234 | a segment that is not executable leaves everything as it was; otherwise builder and written position advance by exactly the planned edit and one coverage point is recorded |
| Instrumenter.ScanToken | internal/instrument/instrumenter.go:236-268 | one turn of the token loop: what was written and what the plan still adds always make up the same final text and points |
| Instrumenter.WriteBody | internal/instrument/instrumenter.go:116-286 | the token loop, the trailing segment and the final flush write the body with the planned signals spliced in, and record their points in order |
| Instrumenter.InstrumentBody | internal/instrument/instrumenter.go:116-286 | the rewritten statement is the text before the body, the spliced body and the text behind it; unchanged without a body, a valid offset or a point |
| Instrumenter.InstrumentStatement | internal/instrument/instrumenter.go:72-98 | PL/pgSQL and SQL bodies are rewritten, everything else is returned unchanged with one implicit point |
| Instrumenter.StatementModes | internal/instrument/instrumenter.go:72-98 | functions, procedures and DO blocks in plpgsql are instrumented from behind BEGIN and those in sql from their start, with executable points of the file; any other statement is unchanged and has one implicit point, which is all of it |
| Instrumenter.GenerateCoverageInstrument | internal/instrument/instrumenter.go:40-69 | the file's text is its statements' texts joined by blank lines, its points are theirs in order and named by the relative path, or by the path if there is none; an error exactly for a missing file |
| Splicing.EraseSplice | internal/instrument/instrumenter.go:128-286 | deleting inserted chunks from a spliced text gives the text back |
| InstrumenterTheorems.StatementErasure | internal/instrument/instrumenter.go:128-286 | deleting the signals from an instrumented statement gives RawSQL back byte for byte, in PL/pgSQL and in SQL mode |
| InstrumenterTheorems.FileErasure | internal/instrument/instrumenter.go:46-61 | the same for a whole instrumented file |
| InstrumenterTheorems.InjectionsArePoints | internal/instrument/instrumenter.go:158-233 | the injected chunks are the signals of the recorded points, one for one and in order, with blanks and newlines around them and nothing else |
| InstrumenterTheorems.SqlLastStatementLast | internal/instrument/instrumenter.go:181-205 | in a SQL-language body the original last statement stays last, byte for byte, so the return type is untouched |
| InstrumenterTheorems.FilePointsInRow | internal/instrument/instrumenter.go:40-69 | all points of a file, executable and implicit, are non-empty, disjoint, strictly increasing and inside the file, each with its own ID |
| InstrumenterTheorems.PointSlicesSegment | internal/instrument/instrumenter.go:148-166 | a point cuts exactly its segment's text out of the source file |
| Correspondence.SegmentEnds | internal/instrument/instrumenter.go:236-268 | reading a statement's last words and its `;` makes the loop emit exactly the segment tied to that statement |
| Correspondence.BodyCorrespondence | internal/instrument/instrumenter.go:116-286 | carrying out the plan on the tokens of a structured body gives the tokens of the body with signal statements, plus a signal behind the outer END in the one case named below |
| Correspondence.BodySegments | internal/instrument/instrumenter.go:236-273 | the planned segments are exactly those tied to statements of the structured body, in order |
| Plpgsql.DistinctSegments | internal/instrument/instrumenter.go:236-273 | no two statements share a segment: those tied to the statements of a program, comments or not, end one behind the other |
| Staleness.MeaningPreserved | internal/instrument/instrumenter.go:412-417 | a program in which no reader of the row count can be reached behind a signal before the row count is set again ends the same way, with the same variables, tables, result and FOUND, after the same statements in the same states, and its signals are the marks of the original run |
| Staleness.BodyMeaningPreserved | internal/instrument/instrumenter.go:112-116 | the same for a whole function body with its exception handlers |
| Scripts.PreservedIff | internal/instrument/instrumenter.go:412-417 | for each program, given which statements read the row count and which set it: its meaning is kept on every such server and from every state if and only if no reader can be reached behind a signal with no setter completed in between |
| Scripts.BodyPreservedIff | internal/instrument/instrumenter.go:112-116 | the same for whole function bodies |
| Scripts.RealCode | internal/instrument/instrumenter.go:206-233 | the condition is exact: whatever exit or stale read the text allows, some server on which setters set the row count takes in the instrumented program |
| Limits.OverwrittenInTime | internal/instrument/instrumenter.go:294-318 | a reader of the row count behind a signal is harmless exactly if the UPDATE between them, whose segment has no signal, sets the row count |
| Staleness.SimLoop | internal/instrument/instrumenter.go:206-233 | the simulation through loops: any number of rounds, EXIT, CONTINUE, RETURN and exceptions; a difference in the row count arises only where the text allows one |
| Staleness.SimBlock | internal/instrument/instrumenter.go:206-233 | the simulation through blocks whose handlers catch what their statements raise |
| Firing.CodeEchoes | internal/instrument/instrumenter.go:206-233 | for every program, server, fuel and state: the instrumented program ends as the annotated program does whose tags fire, in the same state, row count included, and its trace is that of the marks |
| Firing.BlockEchoes | internal/instrument/instrumenter.go:206-233 | the same for blocks with handlers, so for whole bodies |
| Firing.CodeSignalCount | internal/instrument/instrumenter.go:143-146 | a run of instrumented code sends the signal of a segment exactly as often as it reaches the segment's terminal or completes the statement that ends it |
| Signalling.SignalsInFront | internal/instrument/instrumenter.go:143-146 | in every run of an instrumented program, a signal of a segment with a terminal stands directly in front of that terminal |
| Signalling.BodySignalsInFront | internal/instrument/instrumenter.go:143-146 | the same for whole function bodies |
| Signalling.StatementSignal | internal/instrument/instrumenter.go:158-233 | a simple statement has a signal unless the segment it ends opens with BEGIN, END, LOOP, DECLARE or EXCEPTION: in front of it if it is RETURN or a RAISE without message level, behind it otherwise; a RETURN that begins its own segment always has one |
| Signalling.BranchNotifies | internal/instrument/instrumenter.go:206-233 | in every run of an instrumented branch, each signal is for a segment of the arm that is taken, or is the branch's own |
| Signalling.BlockNotifies | internal/instrument/instrumenter.go:206-233 | in every run of an instrumented block, each signal is for its statements, for those of the handler it takes if they raise, or the block's own |
| Meaning.RowCountOverwritten | internal/instrument/instrumenter.go:414-417 | an UPDATE followed by GET DIAGNOSTICS stores another number once instrumented: EXECUTE leaves FOUND alone but sets the row count |
| Meaning.FoundOverwritten | internal/instrument/instrumenter.go:412-417 | a signal sent with PERFORM changes a program that reads FOUND; sent with EXECUTE it does not |
| Relexing.InstrumentedBodyLexes | internal/instrument/instrumenter.go:116-286 | lexing the instrumented text gives the tokens of the instrumented program, if each signal is read as tokens of its own |
| Loading.InstrumentedStatementLoads | internal/instrument/instrumenter.go:112-286 | from the instrumented statement of a dollar-quoted function the server loads the instrumented program, from the original one the original |
| Loading.StatementKeepsMeaning | internal/instrument/instrumenter.go:112-286 | what the server loads from the instrumented statement of a function that is not stale goes the same way as what it loads from the original, and sends accurate signals |
| Relexing.CharactersReadSignals | internal/instrument/instrumenter.go:207-233 | the assumption on reading signals can be met: a lexer of characters reads every signal of every body as tokens of its own |
| Loading.AssumptionsCanBeMet | internal/instrument/instrumenter.go:116-286 | what is asked of the lexer, the parser, a program and its signals holds together, for a dollar-quoted function with a signal |
| Limits.SignalBehindEnd | internal/instrument/instrumenter.go:206-233 | a signal is put behind the outer END if and only if the last handler is empty while an earlier one has statements |
| Limits.CompoundSignal | internal/instrument/instrumenter.go:206-233 | a compound statement has a signal of its own if and only if its last arm has no statements and the segment its END closes opens with a word that is not structure only; the latter holds for all IF, CASE and WHILE statements that have a statement or begin their segment |
| Limits.OwnSignal | internal/instrument/instrumenter.go:219-233 | whichever arm was taken, that signal follows exactly if the statement completes normally |
| Limits.EmptyElseSignalled | internal/instrument/instrumenter.go:219-233 | the segment of an empty ELSE arm is signalled although the other arm was taken |
| Limits.ExitNeverCompleted | internal/instrument/instrumenter.go:219-233 | EXIT as a segment of its own has a point whose signal no run sends |
| Limits.LaterDeclaration | internal/instrument/instrumenter.go:294-318 | in every nested DECLARE section the second and each later declaration gets a signal behind it |
| Limits.FirstDeclaration | internal/instrument/instrumenter.go:294-318 | the first one gets a signal if and only if DECLARE belongs to a segment that opens with another word than BEGIN, END, LOOP, DECLARE or EXCEPTION; none if DECLARE opens it |
| Limits.QuotedBodyEndsAtSignal | internal/instrument/instrumenter.go:206-233 | a signal in a body written in single quotes ends the literal at the word EXECUTE |
| Quoting.ReadBackIff | internal/instrument/instrumenter.go:278-286 | a string constant with insertions is read back if and only if there are none, or it is dollar-quoted and its tag occurs in none of them |
| Quoting.OccursInSignal | internal/instrument/instrumenter.go:414-417 | a dollar-quoting tag occurs in a signal if and only if it occurs in the channel's name or in the path of the file |
| Quoting.BodyReadBack | internal/instrument/instrumenter.go:278-286 | the server reads the instrumented body back from the instrumented statement if and only if no segment of the body opens with another word than a structural keyword, or the body is dollar-quoted with a tag that occurs neither in the channel's name nor in the path |
| Tokens.ContractCanBeMet | internal/instrument/instrumenter.go:128 | the assumptions about the lexer are consistent: a lexer that meets them exists |
| Coverage.Coverage.constructor | internal/coverage/model.go:70-77 | the current schema version, the given time and no positions |
| Coverage.Coverage.AddPosition | internal/coverage/model.go:80-89 | sets one entry of the executable map and leaves the others |
| Coverage.Coverage.AddImplicitPosition | internal/coverage/model.go:93-101 | sets one entry of the implicit map and leaves the others |
| Coverage.Coverage.AllPositions | internal/coverage/model.go:108-117 | nil exactly if the file has no position of either kind; otherwise every key of either kind and no other, with the executable hits where a key has both |
| Coverage.AllPositionsComplete | internal/coverage/model.go:108-117 | what a report reads of a position: known to it exactly if known to either map, with the hits of that map |
| Coverage.CountHits | internal/coverage/model.go:121-131 | covered and total are the sizes of the sets of hit entries and of all entries, in any order of iteration |
| Coverage.Coverage.ExecutablePositionCounts | internal/coverage/model.go:135-137 | the same over executable positions only |
| Coverage.Coverage.Clone | internal/coverage/model.go:327-346 | a new object with the same contents, version, time and root |
| Coverage.MergeInto | internal/coverage/model.go:312-324 | hits are added entry by entry, whatever the order of files and keys |
| Coverage.Merge | internal/coverage/model.go:289-309 | refuses the first input of another version by its number; otherwise a new object with the current time, all hits added up, nil inputs skipped, the first root kept |
| Merging.SummedAssociative | internal/coverage/model.go:312-324 | merging is associative on hits |
| Merging.SummedCommutes | internal/coverage/model.go:312-324 | merging is commutative on hits |
| Merging.SummedWithNothing | internal/coverage/model.go:312-324 | the empty coverage is the identity |
| Merging.MergedAllAt | internal/coverage/model.go:289-324 | in a merge of any number of inputs each position has the sum of its hits and is present if some input has it |
| Merging.OrderOfInputs | internal/coverage/model.go:289-324 | the order of the inputs does not matter |
| Merging.MergeIsCollect | internal/coverage/model.go:289-324 | merging the coverage of two collectors seeded alike equals one collector that saw both sequences of signals |
| Collector.Collector.constructor | internal/coverage/collector.go:19-23 | an empty coverage of its own |
| Collector.Collector.AddSignal | internal/coverage/collector.go:62-79 | a signal that does not parse changes nothing; otherwise its position gets one more hit in the map that holds it, the executable map by default |
| Collector.Collector.CollectFromRun | internal/coverage/collector.go:26-36 | signals are counted up to the first that does not parse, which is reported |
| Collector.Collector.CollectFromRuns | internal/coverage/collector.go:39-46 | the same over all runs in order |
| Collector.Collector.InitializeFromInstrumented | internal/coverage/collector.go:127-146 | seeds every point of every file that is not there yet |
| Collector.Collector.Coverage | internal/coverage/collector.go:82-86 | a copy that later signals do not touch |
| Collector.CollectedUpToPrefix | internal/coverage/collector.go:26-36 | what is counted is the longest prefix of signals that parse, all of them if and only if there is no error |
| Collector.RunsInAnyOrder | internal/coverage/collector.go:39-46 | runs whose signals are the same up to order leave the same counts behind |
| Counting.CountedChangesOne | internal/coverage/collector.go:71-78 | each signal changes exactly one entry of exactly one map, by one, and makes no implicit position |
| Counting.CollectedIsTally | internal/coverage/collector.go:62-79 | collecting is counting: each position's hits grow by the number of signals with that location |
| Counting.OrderOfSignals | internal/coverage/collector.go:62-79 | the result is the same for every permutation of the signals |
| Seeding.SeededIs | internal/coverage/collector.go:127-146 | exactly the points' positions are added, each to the map of its kind, and no hit count changes |
| Seeding.SeededOnce | internal/coverage/collector.go:127-146 | points of different positions end up in one map each, with no hits |
| Percentages.CoverageGrows | internal/coverage/collector.go:71-78 | no sequence of signals lowers covered/total over executable positions, and signals of implicit positions leave it alone |
| Percentages.PutCounts | internal/coverage/model.go:121-137 | one more hit adds to the total only for a new position and to the covered ones only for one without hits |
| Ranges.ResolveOverlappingRanges | internal/report/html.go:223-253 | for any list sorted by start, ties in any order and empty ranges included, the result is in order, disjoint and non-empty, and every byte belongs to the first range that contained it |
| Ranges.OwnerIsFirst | internal/report/html.go:221-222 | a byte has an owner if and only if some range contains it, and it is the first that does |
| Ranges.SortByStart | internal/report/html.go:212-214 | some sorted permutation, whatever the order of ties |
| Ranges.ParsePositionRanges | internal/report/html.go:196-219 | whatever the order of the map, each byte belongs to a key whose range contains it and starts first, or to none if no key's range does |
| Rendering.RenderSourceWithPositions | internal/report/html.go:256-314 | the loop writes the markup of the pieces cut at the ranges that begin inside the source |
| Rendering.PiecesKeepText | internal/report/html.go:276-311 | the pieces put together are the source: no byte is lost, added or moved |
| Rendering.PiecesPaint | internal/report/html.go:276-311 | a byte is inside a span with hit count h if and only if its range has hit count h |
| Rendering.MarkupIs | internal/report/html.go:294-298 | a span carries class cov0 if and only if it has no hits, cov10 otherwise, and its title reads back as the number of hits |
| Rendering.HtmlShows | internal/report/html.go:285-300 | the page without its tags is the escaped source, and reading the character references gives the source back |
| Rendering.RenderFile | internal/report/html.go:174-188 | for any source and any hit counts the page shows the source unchanged and highlights each byte as its keys say |
| Escaping.UnescapeEscape | internal/report/html.go:287 | escaping loses nothing |
| LcovReport.PositionToLine | internal/report/lcov.go:132-144 | 1 plus the newlines before the position, 0 outside of the text |
| LcovReport.LineMonotone | internal/report/lcov.go:132-144 | lines never decrease along positions, and two positions share a line if and only if no newline lies between them |
| LcovReport.KeyLine | internal/report/lcov.go:115-121 | the key of a position leads to the line of its first byte, whatever the length: 1 plus the newlines in front of it, and to none if it begins behind the text |
| LcovReport.ConvertPositionsToLines | internal/report/lcov.go:111-129 | in any order of iteration each line (`KeyLine`) has the sum of its positions' hits, and all lines together the sum of all well-formed positions inside the text |
| LcovReport.LinesSum | internal/report/lcov.go:111-129 | whatever map of lines the positions lead to, its hits add up to those of the well-formed positions inside the text |
| LcovReport.MakeRecord | internal/report/lcov.go:67-102 | DA lines strictly increase, are those of `ConvertPositionsToLines` and carry their hits, LF is the number of lines, LH the number of those hit, at most LF |
| WorkerPool.AlwaysSafe | internal/runner/parallel.go:48-92 | over all interleavings and cancellations: each test is in exactly one place, no channel overflows, a send that is due neither blocks nor meets a closed channel, at most maxWorkers tests run at once |
| WorkerPool.ResultsComplete | internal/runner/parallel.go:74-92 | when the pool returns, entry i is the run of test file i, for every i |
| WorkerPool.StatusesReported | internal/runner/parallel.go:113-144 | told by the steps alone: the worker that took test i looked for a cancellation, found none, ran the test, and the status it ended with is the one returned; or it found the context cancelled and the status is Failed |
| WorkerPool.RunsEnd | internal/runner/parallel.go:52-92 | no interleaving takes more than 6n + maxWorkers + 4 steps |
| WorkerPool.NeverStuck | internal/runner/parallel.go:52-92 | before it returns, some goroutine can always take a step, without waiting for a cancellation |
| WorkerPool.StepKeeps | internal/runner/parallel.go:109-145 | every step of every goroutine keeps the invariant |
| WorkerPool.ExecuteBatch | internal/runner/executor.go:129-147 | the sequential fallback reports the tests up to the first during which the context was cancelled, so unlike the pool it may report fewer |
| WorkerPool.Reached | internal/runner/executor.go:132-144 | it reports all tests if and only if the context was not cancelled before the last one |
| Listener.Listener.HandleNotification | internal/database/listener.go:64-81 | another channel's notification is ignored; with 1000 signals buffered it adds to the drop counter, otherwise it is appended |
| Listener.Listener.Drain | internal/database/listener.go:159-171 | takes everything that is buffered, in order |
| Listener.SignalsConserved | internal/database/listener.go:64-198 | told by the steps alone: every notification of the channel that arrived is collected, buffered or counted as dropped - but the one the program dies of - and those not dropped are collected and buffered in order of arrival; no more than 1000 are buffered |
| Listener.NothingLost | internal/database/listener.go:143-198 | whatever the reason for returning, everything accepted by then is in the result; with a drop counter of zero that is every notification of the channel that arrived before the step that returned, in order |
| Listener.IdleWindow | internal/database/listener.go:174-197 | told by the steps alone: the window may expire if and only if `timeout` has gone by since the start and since every signal received while selecting, and every return by deadline goes back to such a step |
| Listener.ReasonsToReturn | internal/database/listener.go:174-197 | the other reasons are a cancellation or a closed signal channel, and the closed error channel is taken once at most |
| Listener.NoSendOnClosed | internal/database/listener.go:85-102 | the receive loop puts nothing into a closed channel |
| Listener.SendOnClosedIff | internal/database/listener.go:122-133 | `Close` makes the program send on a closed channel, and die, if and only if its UNLISTEN reads a notification of the channel after the loop has closed the signals |
| Listener.SendOnClosed | internal/database/listener.go:122-133 | that happens in five steps |
| Listener.CollectorWorks | internal/database/listener.go:173-197 | each step of the collection leaves less to do, unless something new arrives |
| Listener.CollectorCanStep | internal/database/listener.go:173-197 | once the window is over, the listener closed or the context cancelled, the collection is never blocked |
| EndToEnd.CollectorHolds | internal/coverage/collector.go:26-146 | a collector initialised with the instrumented files and then given the runs, one after the other, holds the count of all signals over the seeded points of all files |
| EndToEnd.FilesWellPlaced | internal/instrument/instrumenter.go:40-69 | the points of several files with different paths are all well placed together |
| EndToEnd.AggregatedHits | internal/coverage/collector.go:62-79 | after seeding with the points of any number of files and any signals of theirs, each point is in the map of its kind and in no other, with as many hits as signals carry its ID |
| EndToEnd.AggregatedOnly | internal/coverage/model.go:108-117 | no other position appears, so executable and implicit keys never collide |
| EndToEnd.HighlightIsCount | internal/report/html.go:154-193 | in the report of any of the files a byte of a point is highlighted with the number of signals received for that point, and a byte of no point is not highlighted |
| Payloads.HeardIsPayload | internal/instrument/instrumenter.go:412-417 | running the chunk injected for a segment, read as the server reads it, notifies the channel of exactly the segment's coverage point |
| Payloads.SignalsOfProgram | internal/instrument/instrumenter.go:143-146 | a run of any instrumented program sends no signal for a segment that is tied to none of its statements |
| Payloads.RunSignalCount | internal/instrument/instrumenter.go:143-146 | of any program: as many payloads of a run carry a segment's ID as its terminal was reached or its last statement completed |
| Executions.SentCount | internal/instrument/instrumenter.go:143-146 | the same over any number of runs of any loaded functions of several files; segments of different functions never share an ID |
| Executions.CompletedAsOriginal | internal/instrument/instrumenter.go:143-146 | if none of the functions is stale, the instrumented runs complete each segment as often as the original runs |
| Executions.NeverCovered | internal/instrument/instrumenter.go:219-233 | a point whose segment is completed by no body of the statement has no completions in any runs |
| Executions.HighlightIsExecutions | internal/report/html.go:154-193 | load instrumented PL/pgSQL functions of several files, run them any number of times and report: a byte of a segment is highlighted with at most the number of times the segment was completed or its terminal reached, positive exactly if a signal of it was not rolled back, and equal to that number if every signal is delivered |
| Executions.ChainCanBeMet | internal/instrument/instrumenter.go:40-69 | there are a tree and a call as the chain asks for |
| LineTotals.LinesCountSignals | internal/report/lcov.go:111-129 | the hits of all lines of a file add up to the number of signals received for its executable points |
| LineTotals.LineCountsSignals | internal/report/lcov.go:111-129 | a line is in the report if and only if an executable point of the file begins on it, and its hits are the number of signals received for the executable points that begin on it |

## Left out

- Delivery: how the server collapses equal notifications of one transaction and which it drops at a rollback are parameters of the chain, not modelled; so is the loss of notifications in a full buffer, which `SignalsConserved` counts.
- Loading.InstrumentedStatementLoads: needs a dollar-quoted body whose tag is in no signal, and no signal behind the outer END. Bodies in single quotes that get a signal do not load (`BodyReadBack`), nor do those with a signal behind END (`SignalBehindEnd` says exactly which).
- Executions.HighlightIsExecutions: the functions that run are loadable in that sense; the server's splitting of a file into statements is not modelled.
- Staleness.MeaningPreserved: needs a program that is not stale; `PreservedIff` shows that no other program keeps its meaning on every server.
- The fragment has no nested DECLARE sections (`LaterDeclaration` shows why), no labels, and RETURN and RAISE only at the head of a statement. CASE is a branch like IF.
- A failing pg_notify (payload of 8000 bytes or more, queue full) is not modelled; a signal always succeeds.
- Loops run on fuel, one unit a round, the same for both programs; a run that needs more ends as out of fuel in both.
- Quoting.BodyReadBack: in SQL-language bodies the channel is not empty and does not begin with a quote, as the instrumenter asks of its callers.
- Parser.SplitAndClassify: the grouping into statements is the lexer library's and is an input.
- Hit counts, positions and range ends are unbounded integers; only the numbers in IDs and keys are limited to 64 bits, as parsing them is.
- Coverage.MergeInto: a nil inner map, which only a hand-written coverage file can contain, is not told from an empty one. Maps are values, so aliasing between a coverage and its copy is not captured.
- Coverage.Coverage.Clone: that inner maps are copies of their own is not expressed, as maps are values.
- WorkerPool.AlwaysSafe: what a test does is abstract; it ends with one of the three final statuses. The status logic of `Execute`, filtering of sources and `SummarizeRuns` are left out as easy.
- Listener.SendOnClosedIff: how the connection library lets UNLISTEN read what the receive loop left is taken as any order of steps.
- Listener.IdleWindow: the collection need not end while signals keep arriving, by design.
- Rendering.RenderFile: the page around the source, file lookup and the report for an unreadable file are left out, as is the LCOV fallback without source text.
- Percentages as floating-point numbers are left out; covered and total are compared as integers.
- JSON output, the coverage file's storage, command line, configuration, discovery, temporary databases and LISTEN itself are I/O or calls into code that is not part of this model.
- The scaffold generator behind `pgcov init` is a heuristic and left out.
