# Star Script and the trading-chart state, in Dafny

This project models the core of the Star Script tool chain and the state logic of the trading chart that
hosts it, and proves properties of that model.

The Star Script pipeline:

- **line parser** (`parse`): a regex classifier that turns each line into an indicator, an assignment, a
  bare call, or nothing. It has no operator precedence.
- **callee-normalising transformer** (`transformProgram`): rewrites call names into the `star.*` namespace.
- **tree-walking evaluator** (`evaluate`): counts one operation per node against a budget.
- **runner** (`runScript`): binds assignments in order, over a default environment holding a synthetic
  price series and small technical-analysis helpers.
- **transpiler**: renders a tree back to text, and to a JavaScript module that embeds the tree as JSON.
- **conformance normalisers**: the generated-parser adapter, and the parser-diff script that compares
  both parsers over fixtures.

The charting side:

- the drawing store and the drawing record constructors;
- the two drawing hooks (a click state machine and an older start/update/finish flow);
- the ruler of the drawing layer, with its nearest-bar search and bar-count text;
- the market-data helpers (interval mapping, candle buffer, reconnect back-off);
- the indicator list editor and the chart-settings profile editor.

Pure code is modelled as datatypes, functions and lemmas. Code that updates component or store state
becomes a class whose methods reassign its fields. Each method is specified by a pure step function or
list function, and the properties are proved about those functions. JavaScript values that the source
inspects dynamically are modelled as a small JSON-like datatype (`Js.Js`). Numbers are integers,
decimals `mant / 10^scale`, or reals, as each property needs.

The code is a small scaffold of the language, and the model follows it as written:

- The line parser has no operator precedence and no nested argument splitting. A right-hand side such as
  `1 + 2 * 3` is one identifier, and call arguments are split on every comma.
- `strategy.entry` and `strategy.exit` only record their calls. Order fills, slippage, partial fills and
  profit and loss do not exist in the code.
- `request.security` ignores the symbol and the timeframe.
- Division of a non-zero number by zero, and the other results that are infinite or need rounding in
  JavaScript, are an unmodelled value rather than a number (see "Floating point" below).

## Model

| member | source | states |
|---|---|---|
| Strings.Trim | src/lib/star-parser/index.ts:11 | `trim` gives exactly the infix left once all leading and all trailing white space is removed: it starts after the leading white space, everything after it is white space, and it has no white space at either end |
| Strings.TrimIdempotent | src/lib/star-parser/index.ts:68 | trimming a trimmed line changes nothing |
| Strings.Split | src/lib/star-parser/index.ts:64 | splitting on one character gives pieces that hold no separator, one more piece than separators |
| Strings.JoinSplit | src/lib/star-parser/index.ts:64 | joining the pieces of a split with the separator gives the text back |
| Strings.SplitJoin | src/lib/star-parser/index.ts:35 | splitting the join of separator-free pieces gives the pieces back |
| Strings.NatToString | src/utils/drawingPrimitives.ts:21 | `String(n)` of a natural number is a non-empty run of decimal digits |
| Strings.DigitsValueOfNatToString | src/components/ChartDrawingLayer.tsx:89 | reading back the digits of `String(n)` gives `n` |
| Strings.RemoveFirst | src/components/ChartDrawingLayer.tsx:89 | `replace` with a one-character pattern removes one character exactly when the character occurs |
| Strings.RemoveFirstSplit | src/components/ChartDrawingLayer.tsx:89 | only the first occurrence goes; the text around it stays in order |
| Strings.DigitRun | src/components/ChartDrawingLayer.tsx:89 | the run of digits `parseInt` reads is maximal |
| StarParser.ParseNumber | src/lib/star-parser/index.ts:17-20 | a decimal token gives a non-negative Number whose value is its integer digits plus its fraction digits over the matching power of ten |
| StarParser.DecimalOf | src/lib/star-parser/index.ts:17-19 | a mantissa denotes a non-negative decimal: its digits, or its integer digits plus its fraction digits over the matching power of ten |
| StarParser.ParseString | src/lib/star-parser/index.ts:22-30 | a quoted token loses its quotes, never grows and keeps no `\` followed by `n`; any other token is returned trimmed; the result is always a String node |
| StarParser.NonEmptyTrimmed | src/lib/star-parser/index.ts:35 | the kept pieces are non-empty and trimmed, and no more than the input pieces |
| StarParser.ArrayItems | src/lib/star-parser/index.ts:36-40 | one item per piece, each a Number, String or Identifier, none an operator node |
| StarParser.ParseArray | src/lib/star-parser/index.ts:32-42 | an array literal gives an Array node whose items are only numbers, strings or identifiers |
| StarParser.ArrayItem | src/lib/star-parser/index.ts:36-40 | an item is a Number exactly when it is a decimal token; a quoted item is a string; any other is an identifier named by the trimmed piece |
| StarParser.IndexMatch | src/lib/star-parser/index.ts:56 | a match of `name[digits]` gives an identifier-shaped name and a digit string |
| StarParser.CallMatch | src/lib/star-parser/index.ts:46 | a match of `callee(...)` gives a non-empty callee of `[a-zA-Z0-9_.]` characters |
| StarParser.CallArgs | src/lib/star-parser/index.ts:52-59 | one argument per comma piece, classified in order, none an operator node |
| StarParser.CallArg | src/lib/star-parser/index.ts:52-58 | in source order: a decimal token is a number, quoted text a string, `name[digits]` an index, anything else an identifier named by the trimmed piece |
| StarParser.ParseCall | src/lib/star-parser/index.ts:44-61 | a Call exactly when the call pattern matches, with the matched callee; `null` otherwise |
| StarParser.AssignMatch | src/lib/star-parser/index.ts:77-80 | an assignment match gives an identifier as the assigned name |
| StarParser.ClassifyRhs | src/lib/star-parser/index.ts:82-97 | each branch in source order: quoted text is a string, a decimal token a number, a bracketed text an array, a call prefix a call or `Unknown`, `name[digits]` an index, anything else one identifier; never an operator node |
| StarParser.ParseLine | src/lib/star-parser/index.ts:67-107 | blank and comment lines are skipped; an `indicator` line is kept verbatim; otherwise an assignment match gives its name and the classified right-hand side, a call match gives a `_call` entry, and anything else is skipped |
| StarParser.Parse | src/lib/star-parser/index.ts:63-112 | the parse loop equals the fold of `ParseLine` over the lines |
| StarParser.ParseLines | src/lib/star-parser/index.ts:67-109 | after n lines, at most n indicators and n assignments; every indicator starts with `indicator`; every assignment has an identifier and no operator node |
| StarParser.AssembledWellParsed | src/lib/star-parser/index.ts:67-109 | each line keeps the program well parsed |
| StarParser.NewlinesDecoded | src/lib/star-parser/index.ts:27 | after `replace(/\\n/g, …)` no `\` followed by `n` is left |
| StarParserProps.ParseLinesAppend | src/lib/star-parser/index.ts:67-109 | the program of two blocks of lines is the two programs one after the other |
| StarParserProps.CommentLineAddsNothing | src/lib/star-parser/index.ts:68-70 | a blank or comment line adds nothing wherever it stands |
| StarParserProps.IndicatorLineIsVerbatim | src/lib/star-parser/index.ts:72-75 | an `indicator` line is appended trimmed to the indicators and never becomes an assignment |
| StarParserProps.AtMostOneEntryPerLine | src/lib/star-parser/index.ts:67-109 | each line adds at most one indicator or assignment |
| StarParserProps.AssembleAssignmentsFromLines | src/lib/star-parser/index.ts:98-105 | every collected assignment is the contribution of one of the lines |
| StarParserProps.ParsedAssignmentsShape | src/lib/star-parser/index.ts:77-107 | no parsed assignment holds a Binary or Unary node, and every id is an identifier |
| StarParserProps.ParseStringRoundTrip | src/lib/star-parser/index.ts:22-30 | a text without backslashes, quoted with its quotes and newlines escaped, reads back as the text |
| StarParserProps.ArithmeticIsOneIdentifier | src/lib/star-parser/index.ts:95-97 | every digit-led right-hand side that is no decimal token and holds no `(` is one identifier named by the whole text: arithmetic is not parsed |
| StarParserProps.UnknownWhenNoClosingParen | src/lib/star-parser/index.ts:89-91 | a call-shaped right-hand side that the call pattern rejects becomes `Unknown` |
| StarParserProps.CallWithTrailingIndexIsUnknown | src/lib/star-parser/index.ts:89-91 | every `callee(…)[k]` right-hand side becomes `Unknown` with its text |
| StarParserProps.IdentifierArg | src/lib/star-parser/index.ts:58 | an argument that is no number, string or index is an identifier named by the whole piece |
| StarParserProps.NamedArgumentIsOneIdentifier | src/lib/star-parser/index.ts:52-58 | every `name=value` argument inside a call is one identifier named by the whole piece |
| StarTransform.NormalizeCallee | src/lib/star-ast-transform.ts:49-65 | a rewritten name lands in `star.`, and a name already in `star.` is kept |
| StarTransform.Transform | src/lib/star-ast-transform.ts:16-47 | every node keeps its kind; a call gets its callee normalised and keeps its argument count; an array keeps its length; a binary node keeps its operator under `operator` and loses `op`; other nodes are copied |
| StarTransform.TransformList | src/lib/star-ast-transform.ts:23 | the mapped list has the length of the input |
| StarTransform.TransformProgram | src/lib/star-ast-transform.ts:8-14 | same indicators, same number of assignments, same ids in order |
| StarTransformProps.NormalizeCalleeIdempotent | src/lib/star-ast-transform.ts:49-65 | normalising twice is normalising once |
| StarTransformProps.BareNames | src/lib/star-ast-transform.ts:49-64 | every dot-free name other than `plot` and `input…` moves under `star.ta.` exactly when it is a technical-analysis built-in, and is kept otherwise |
| StarTransformProps.RequestNames | src/lib/star-ast-transform.ts:56 | every `request.` name gains the `star.` prefix |
| StarTransformProps.NormalizePlotAndInput | src/lib/star-ast-transform.ts:52-54 | `plot` and `input` become `star.plot` and `star.input` |
| StarTransformProps.TransformListAt | src/lib/star-ast-transform.ts:23 | the list map transforms each element in place |
| StarTransformProps.TransformNormalizesCallees | src/lib/star-ast-transform.ts:16-47 | after the transform every call name in a tree without Unary nodes is normalised |
| StarTransformProps.TransformListNormalizesCallees | src/lib/star-ast-transform.ts:23 | the same for every element of a list |
| StarTransformProps.TransformIdempotent | src/lib/star-ast-transform.ts:16-47 | transforming a transformed tree changes nothing |
| StarTransformProps.TransformListIdempotent | src/lib/star-ast-transform.ts:23 | the same for lists |
| StarTransformProps.TransformPreservesSize | src/lib/star-ast-transform.ts:16-47 | the copy has as many nodes as the original |
| StarTransformProps.TransformListPreservesSize | src/lib/star-ast-transform.ts:23 | the same for lists |
| StarTransformProps.BinaryLosesOp | src/lib/star-ast-transform.ts:37-39 | a Binary node keeps `operator` and drops an `op` field |
| StarAst.Size | src/lib/star-runtime/index.ts:20-23 | every node costs at least one operation |
| StarAst.NumberText | src/lib/star-transpiler.ts:65 | `String(n)` of zero is `0`, and the text of a number never holds a line break |
| StarAst.NumberTextNotation | src/lib/star-transpiler.ts:65 | `String(n)` uses exponent notation exactly for non-zero magnitudes below 1e-6 or from 1e21 on (section 6.1.6.1.20 of ECMA-262) |
| StarAst.NumberTextWhole | src/lib/star-transpiler.ts:65 | a whole number below 1e21 prints as its decimal digits, with a `-` when negative |
| StarAst.MagnitudeTextForm | src/lib/star-transpiler.ts:65 | for a positive magnitude, the exponent form is chosen exactly outside [1e-6, 1e21), and a whole magnitude below 1e21 is its digits |
| StarAst.DigitsText | src/lib/star-transpiler.ts:65 | with the point after `n` of the significant digits, the exponent form is used exactly when `n <= -6` or `n > 21`; digits followed by zeros when they all precede the point |
| StarAst.StripZeros | src/lib/star-transpiler.ts:65 | the significant digits of a positive integer: no trailing zero, and the integer is them times a power of ten |
| StarAst.StripZerosPow10 | src/lib/star-transpiler.ts:65 | a power of ten has the one significant digit 1 |
| StarValues.NumberOfString | src/lib/star-runtime/index.ts:44-47 | `Number(s)` of blank text is 0, and of a decimal token its decimal value (section 7.1.4.1.1 of ECMA-262) |
| StarValues.NumberOfTrimmed | src/lib/star-runtime/index.ts:44-47 | on trimmed text: blank is 0, a decimal token is its decimal value, and a `0x`, `0o` or `0b` literal is its digits read in that base, or NaN when one is no digit of the base |
| StarValues.UnsignedDecimal | src/lib/star-runtime/index.ts:44-47 | a mantissa with an optional exponent is read; a mantissa alone reads as its decimal value |
| StarValues.InfinityNotRead | src/lib/star-runtime/index.ts:44-47 | `Infinity` with or without a sign is given no finite value |
| StarValues.LetterLedIsNaN | src/lib/star-runtime/index.ts:44-47 | text led by a letter, or by a sign and a letter, other than the radix forms, is NaN |
| StarValuesProps.NumberAgreesWithParser | src/lib/star-parser/index.ts:17-20 | on the numerals the line parser accepts, `Number(s)` and the parsed Number node agree |
| StarValuesProps.SignedDecimal | src/lib/star-runtime/index.ts:44-47 | a leading `-` negates a decimal numeral and a leading `+` keeps it |
| StarValuesProps.SignedRadixIsNaN | src/lib/star-runtime/index.ts:44-47 | a radix literal takes no sign: `-0x…` and `+0x…` are NaN |
| StarValuesProps.NumberOfNatText | src/lib/star-runtime/index.ts:44-47 | `Number(String(n))` is n for every natural number |
| StarValuesProps.ExponentScales | src/lib/star-runtime/index.ts:44-47 | `e`, `e+` or `e-` followed by digits scales the mantissa by that power of ten |
| StarValuesProps.PointOnOneSide | src/lib/star-runtime/index.ts:44-47 | `.5` and `12.` are numerals: the point may have digits on one side only |
| StarValues.ToNumber | src/lib/star-runtime/index.ts:44-47 | a number converts to itself and text as `Number(s)`; undefined, NaN, objects and functions convert to NaN; infinities give no value |
| StarValues.KeyOf | src/lib/star-runtime/index.ts:13 | a string is its own property key, and a whole number below 1e21 in magnitude is keyed by its decimal text |
| StarValues.WholeText | src/lib/star-runtime/index.ts:13 | a whole number below 1e21 in magnitude prints as its signed decimal digits |
| StarValues.KeyOfWhole | src/lib/star-runtime/index.ts:13 | a whole number is keyed by its `Number::toString` text |
| StarValues.KeyOfWholeNotation | src/lib/star-runtime/index.ts:13 | a whole number's `String(n)` is in exponent notation exactly when its magnitude is 1e21 or more |
| StarValues.KeyOfTenToTwentyOne | src/lib/star-runtime/index.ts:13 | `String(1e21)` is `1e+21` |
| StarValues.Prop | src/lib/star-runtime/index.ts:13 | `v[key]` of an object is its field or undefined, and of an array with an index key is that element |
| StarValues.Lookup | src/lib/star-runtime/index.ts:13 | a variable the environment does not hold reads as undefined |
| StarRuntime.ResolveFrom | src/lib/star-runtime/index.ts:11-15 | walking no segments gives the starting value |
| StarRuntime.ResolvePath | src/lib/star-runtime/index.ts:8-16 | a name without a dot is a plain environment lookup |
| StarRuntime.ResolvePathLoop | src/lib/star-runtime/index.ts:8-16 | the cursor loop with its early exit equals the recursive path walk |
| StarRuntime.OpCount | src/lib/star-runtime/index.ts:20 | an absent or falsy counter counts as 0, a number as itself and `true` as 1 |
| StarRuntime.LimitValue | src/lib/star-runtime/index.ts:21 | `env._opLimit \|\| 1000000`: a truthy limit is kept, an absent or falsy one is 1000000, and the result is always truthy |
| StarRuntime.OpLimit | src/lib/star-runtime/index.ts:21-23 | the number `>` compares against: 1000000 for an absent or falsy limit, a non-zero number itself, `true` as 1, a text as `Number(s)`, and no number (NaN) otherwise |
| StarRuntime.Tick | src/lib/star-runtime/index.ts:20-22 | one visit adds exactly one to the counter and leaves the limit, and the value it reports, alone |
| StarRuntime.BinaryOp | src/lib/star-runtime/index.ts:42-49 | a Binary node evaluates exactly when its `op` is one of `+ - * / ^`, and throws otherwise |
| StarRuntime.UnaryOp | src/lib/star-runtime/index.ts:53-57 | a Unary node evaluates exactly when its `op` is `+` or `-` |
| StarRuntime.Add | src/lib/star-runtime/index.ts:43 | two texts concatenate; operands that add as numbers give NaN exactly when one of them converts to NaN |
| StarRuntime.Pow | src/lib/star-runtime/index.ts:47 | a whole non-negative exponent gives the exact power; the result is NaN exactly when a negative base meets a fractional exponent |
| StarRuntime.NumericOp | src/lib/star-runtime/index.ts:44-47 | the result is NaN exactly for 0/0 and for a negative base under a fractional exponent |
| StarRuntime.Arith | src/lib/star-runtime/index.ts:42-47 | `x ^ 0` is 1 for every x; `+` joins two texts; for `- * / ^` on tracked operands the result is NaN exactly when an operand is NaN, for 0/0, or for a negative base under a fractional exponent |
| StarRuntime.IndexValue | src/lib/star-runtime/index.ts:69-72 | null or undefined targets give undefined; an object gives its field under a text key; an array gives its element at an integer position in range and below 1e21 |
| StarRuntime.Eval | src/lib/star-runtime/index.ts:18-77 | plot records are only appended; a counter that `>` finds past the limit throws the limit error, naming the limit value, after counting the visit; an `Unknown` node always throws |
| StarRuntime.EvalList | src/lib/star-runtime/index.ts:62 | a list that evaluates gives one value per element |
| StarRuntimeProps.ResolveFromAppend | src/lib/star-runtime/index.ts:11-14 | walking `a + b` is walking `a` and then `b` |
| StarRuntimeProps.ResolveStopsAtNullish | src/lib/star-runtime/index.ts:12 | once an intermediate value is null or undefined, the whole path is undefined |
| StarRuntimeProps.DottedNameReadsField | src/lib/star-runtime/index.ts:8-16 | `a.b` reads field `b` of the object bound to `a` |
| StarRuntimeProps.EvalOnlyCounts | src/lib/star-runtime/index.ts:18-77 | evaluation changes no variable of the environment except the operation counter |
| StarRuntimeProps.EvalListOnlyCounts | src/lib/star-runtime/index.ts:62 | the same for an argument list |
| StarRuntimeProps.EvalCountsNodes | src/lib/star-runtime/index.ts:20-23 | a successful evaluation counts exactly one operation per node and stays within the limit |
| StarRuntimeProps.EvalListCountsNodes | src/lib/star-runtime/index.ts:62 | the same for a list |
| StarRuntimeProps.EvalCountsNodesBinary | src/lib/star-runtime/index.ts:40-41 | the same for a Binary node, whose operands are evaluated left then right |
| StarRuntimeProps.EvalCountsNodesIndex | src/lib/star-runtime/index.ts:70-71 | the same for an Index node, target then index |
| StarRuntimeProps.OversizedTreeThrows | src/lib/star-runtime/index.ts:23 | a tree larger than the remaining budget throws |
| StarRuntimeProps.TextLimitStopsLargeTrees | src/lib/star-runtime/index.ts:21-23 | a limit given as the text of a number `n` acts as `n`: a tree larger than the remaining budget throws |
| StarRuntimeProps.UnreadableLimitNeverThrows | src/lib/star-runtime/index.ts:21-23 | a limit whose `Number` is NaN (such as a non-numeric text) never stops evaluation: no error is the limit error |
| StarRuntimeProps.UnreadableLimitNeverThrowsList | src/lib/star-runtime/index.ts:62 | the same for a list |
| StarRuntimeProps.UnreadableLimitNeverThrowsPair | src/lib/star-runtime/index.ts:40-41 | the same for the two operands of a Binary or Index node, evaluated in turn |
| StarRuntimeProps.FreshCounterAdmitsSmallTrees | src/lib/star-runtime/index.ts:20-23 | with the default counter and limit, only trees of at most 1000000 nodes evaluate |
| StarRuntimeProps.UnresolvedNameIsItsText | src/lib/star-runtime/index.ts:31-38 | an unbound name evaluates to its own text |
| StarRuntimeProps.OperatorFreeErrors | src/lib/star-runtime/index.ts:18-77 | a tree from the parser can throw only for the operation budget or a node of unsupported type |
| StarRuntimeProps.OperatorFreeListErrors | src/lib/star-runtime/index.ts:62 | the same for lists |
| StarRuntimeProps.PlotCallAddsOneRecord | src/lib/star-runtime/runner.ts:36 | a `plot(...)` call, reached through the call branch of index.ts:59-65, returns null and appends exactly one record, `{callee: 'plot', args}` of its evaluated arguments |
| StarRuntimeProps.TransformedBinaryThrows | src/lib/star-runtime/index.ts:39-49 | a Binary node that went through the transformer has no `op` and always throws |
| StarRuntimeProps.BinaryWithoutOpThrows | src/lib/star-runtime/index.ts:42-49 | a Binary node without `op` always throws, at the latest in the `default` branch |
| StarRuntimeProps.EvalCallApplies | src/lib/star-runtime/index.ts:59-63 | a call whose callee resolves to a function applies it to the evaluated arguments |
| StarRuntimeProps.UnknownThrows | src/lib/star-runtime/index.ts:74-75 | an `Unknown` node from the parser throws |
| StarRuntimeProps.ArithConvertsOperands | src/lib/star-runtime/index.ts:44-47 | `- * / ^` see their operands only through `Number(v)` |
| StarRuntimeProps.ProductCommutes | src/lib/star-runtime/index.ts:45 | `l * r` and `r * l` are equal for all operands |
| StarRuntimeProps.SumCommutes | src/lib/star-runtime/index.ts:43 | `l + r` and `r + l` are equal when both operands add as numbers (undefined, null, booleans and numbers) |
| StarRuntimeProps.NegativeExponentInverts | src/lib/star-runtime/index.ts:47 | `x ^ -k` is the inverse of `x ^ k` for non-zero x |
| StarBuiltins.Last | src/lib/star-runtime/runner.ts:57 | `src.slice(-n)` keeps the last `n` elements, or all of them when there are fewer |
| StarBuiltins.SliceFrom | src/lib/star-runtime/runner.ts:80-81 | `slice(start)` with a negative start counts from the end, clamped to the array |
| StarBuiltins.Trunc | src/lib/star-runtime/runner.ts:56 | truncation toward zero lies within one of its argument on the zero side |
| StarBuiltins.SmaLength | src/lib/star-runtime/runner.ts:56 | the window is at least 1, and the floor of a length of 1 or more; NaN and lengths below 1 give 1 |
| StarBuiltins.Sma | src/lib/star-runtime/runner.ts:54-62 | a non-array is returned as it is; an empty array gives NaN; an infinite length gives the unmodelled value; otherwise the mean is a number exactly when no value of the window is infinite, and the unmodelled value comes only from an infinite length or element |
| StarBuiltins.RsiMovement | src/lib/star-runtime/runner.ts:68-73 | the accumulated gains and losses are never negative |
| StarBuiltins.StrengthIndex | src/lib/star-runtime/runner.ts:76-77 | `100 - 100 / (1 + rs)` lies in [0, 100] |
| StarBuiltins.RsiFromMovement | src/lib/star-runtime/runner.ts:74-78 | the index computed from the movements lies in [0, 100] |
| StarBuiltins.RsiLength | src/lib/star-runtime/runner.ts:65 | the window is at least 1 (14 when the length is NaN or floors to 0) |
| StarBuiltins.RsiOfWindow | src/lib/star-runtime/runner.ts:66-78 | the index of a window lies in [0, 100] |
| StarBuiltins.Rsi | src/lib/star-runtime/runner.ts:63-79 | `ta.rsi` gives 50 for a non-array and for fewer than two values; it is a number in [0, 100] unless the length or a value of the window is infinite, and only then the unmodelled value |
| StarBuiltins.Numbers | src/lib/star-runtime/runner.ts:80-81 | the values convert to numbers element by element, or some element is not numeric |
| StarBuiltins.MaxOf | src/lib/star-runtime/runner.ts:80 | `Math.max` of a non-empty list is an element no smaller than any element |
| StarBuiltins.MinOf | src/lib/star-runtime/runner.ts:81 | `Math.min` of a non-empty list is an element no larger than any element |
| StarBuiltins.Highest | src/lib/star-runtime/runner.ts:80 | a non-array source is returned unchanged; an infinite length gives the unmodelled value; a numeric result is the number of some element of the array |
| StarBuiltins.Lowest | src/lib/star-runtime/runner.ts:81 | a non-array source is returned unchanged; an infinite length gives the unmodelled value; a numeric result is the number of some element of the array |
| StarBuiltins.Avg | src/lib/star-runtime/runner.ts:19 | `math.avg()` of nothing is NaN, and of numbers is their sum divided by their count |
| StarBuiltins.Rgb | src/lib/star-runtime/runner.ts:20 | `color.rgb(r, g, b)` is exactly the text `rgb(` r `,` g `,` b `)` of the three arguments' texts |
| StarBuiltinsProps.RgbOfHugeComponent | src/lib/star-runtime/runner.ts:20 | a component of 1e21 is written `1e+21`, as the template literal writes it |
| StarBuiltins.RecordInput | src/lib/star-runtime/runner.ts:22-33 | the named form records the third argument under the second; with fewer than two arguments nothing is recorded |
| StarBuiltins.Security | src/lib/star-runtime/runner.ts:44-51 | an array expression is returned as it is, anything else gives the `close` series |
| StarBuiltins.Apply | src/lib/star-runtime/runner.ts:18-96 | host functions bind no variable; only `plot` adds a plot record, exactly one, and returns null; `input.int` returns its default |
| StarBuiltins.AccumulateMovement | src/lib/star-runtime/runner.ts:68-73 | the gain/loss loop counts one step per pair and equals the recursive movement |
| StarBuiltins.FinishRsi | src/lib/star-runtime/runner.ts:74-78 | the tail of `ta.rsi` gives the index of the window |
| StarBuiltins.ComputeRsi | src/lib/star-runtime/runner.ts:63-79 | the `ta.rsi` method equals the `Rsi` specification |
| StarBuiltinsProps.MeanWithinRange | src/lib/star-runtime/runner.ts:58-59 | the mean of values within bounds lies within the bounds |
| StarBuiltinsProps.SmaWithinRange | src/lib/star-runtime/runner.ts:54-62 | `ta.sma` with a finite length over finite values within bounds lies within the bounds |
| StarBuiltinsProps.SmaOfConstant | src/lib/star-runtime/runner.ts:54-62 | `ta.sma` of a constant series with a finite length is the constant |
| StarBuiltinsProps.RsiOfFlatWindow | src/lib/star-runtime/runner.ts:75 | a flat window has RSI 50 |
| StarBuiltinsProps.RsiOfFlatSeries | src/lib/star-runtime/runner.ts:63-79 | `ta.rsi` of a flat series with a finite length is 50 |
| StarBuiltinsProps.RsiOfFallingWindow | src/lib/star-runtime/runner.ts:74-78 | a strictly falling window has RSI 0 |
| StarBuiltinsProps.RsiOfFallingSeries | src/lib/star-runtime/runner.ts:63-79 | `ta.rsi` of a strictly falling series with a finite length is 0 |
| StarBuiltinsProps.WindowOfWholeLength | src/lib/star-runtime/runner.ts:80 | a length within the array selects its last `k` elements |
| StarBuiltinsProps.NumberWindow | src/lib/star-runtime/runner.ts:80 | the last `k` numbers hold no untracked value and convert to themselves |
| StarBuiltinsProps.WindowExtremes | src/lib/star-runtime/runner.ts:80-81 | on the last `k` numbers, `highest` and `lowest` are the maximum and minimum of that window |
| StarBuiltinsProps.WindowMax | src/lib/star-runtime/runner.ts:80 | the maximum of the window bounds each of the last `k` numbers and is one of them |
| StarBuiltinsProps.WindowMin | src/lib/star-runtime/runner.ts:81 | the minimum of the window bounds each of the last `k` numbers and is one of them |
| StarBuiltinsProps.HighestOfLast | src/lib/star-runtime/runner.ts:80 | `ta.highest` over numbers is the maximum of the last `k`, attained by one of them |
| StarBuiltinsProps.LowestOfLast | src/lib/star-runtime/runner.ts:81 | `ta.lowest` over numbers is the minimum of the last `k`, attained by one of them |
| StarBuiltinsProps.AvgWithinBounds | src/lib/star-runtime/runner.ts:19 | `math.avg` of numbers within bounds lies within the bounds |
| StarBuiltinsProps.AvgOfConstant | src/lib/star-runtime/runner.ts:19 | `math.avg` of copies of one number is that number |
| StarBuiltinsProps.SecurityIgnoresSymbol | src/lib/star-runtime/runner.ts:45-50 | `request.security` ignores the symbol and the timeframe |
| StarRunner.CloseSeries | src/lib/star-runtime/runner.ts:13-14 | 200 closes, the i-th being 100 + i/2 |
| StarRunner.Shift | src/lib/star-runtime/runner.ts:15-16 | each element moved by the same amount |
| StarRunner.MakeDefaultEnv | src/lib/star-runtime/runner.ts:10-98 | close, high = close + 1 and low = close - 1 series; `plot` bound; no counter or limit; no plots, inputs, entries or exits |
| StarRunner.DefaultVarsBindings | src/lib/star-runtime/runner.ts:10-98 | the default variables bind `close`, `high` and `low` to the series, `plot` to the plot function, and leave `_opCount`, `_opLimit` and `star` unbound |
| StarRunner.RunProgram | src/lib/star-runtime/runner.ts:100-114 | a run succeeds exactly when every assignment evaluates; it returns the program's indicators and the environment's plots |
| StarRunner.RunAllErrSticky | src/lib/star-runtime/runner.ts:104-112 | the first throwing assignment ends the run |
| StarRunner.Step | src/lib/star-runtime/runner.ts:105-111 | a step succeeds exactly when the expression evaluates, with the same error otherwise; earlier plots stay; a non-`_call` id is bound to the value |
| StarRunner.RunAll | src/lib/star-runtime/runner.ts:104-112 | plots recorded earlier survive the run; a run that succeeds also succeeds on every shorter prefix of the program |
| StarRunner.RunScript | src/lib/star-runtime/runner.ts:100-114 | the runner loop equals parse followed by the run specification |
| StarRunnerProps.StepBindings | src/lib/star-runtime/runner.ts:105-111 | one step binds the id to the evaluated value (a `_call` binds nothing) and changes only the counter otherwise |
| StarRunnerProps.StepKeepsOtherBinding | src/lib/star-runtime/runner.ts:105-111 | a step leaves every name other than its own id and the counter as it was |
| StarRunnerProps.LastBindingWins | src/lib/star-runtime/runner.ts:104-112 | after a run, an id holds the value of its last assignment |
| StarJson.OptStr | src/lib/star-transpiler.ts:35 | an absent field is left out of the JSON object |
| StarJson.ExprJs | src/lib/star-transpiler.ts:35 | every node becomes an object whose first field is `type` |
| StarJson.ExprsJs | src/lib/star-transpiler.ts:35 | a list of nodes becomes the list of their objects, in order |
| StarJson.AssignmentsJs | src/lib/star-transpiler.ts:35 | one object per assignment, in order |
| StarTranspiler.Assign | src/lib/star-transpiler.ts:51 | `named[k] = v` on an object: an existing key keeps its place with the new value, a new key goes last, keys stay distinct |
| StarTranspiler.Put | src/lib/star-transpiler.ts:51 | assigning `__proto__` adds no own key; nothing else is added |
| StarTranspiler.GroupFrom | src/lib/star-transpiler.ts:46-56 | the rest of the argument scan keeps distinct keys and draws every entry from the arguments |
| StarTranspiler.GroupArgs | src/lib/star-transpiler.ts:43-56 | the split into positional and named arguments keeps distinct keys and draws every entry from the arguments |
| StarTranspiler.GroupCallArgs | src/lib/star-transpiler.ts:43-56 | the loop with its skip of the paired value equals the recursive grouping |
| StarTranspiler.UnaryOpText | src/lib/star-transpiler.ts:69 | `e.op \|\| e.operator \|\| '-'` is never empty |
| StarTranspiler.RenderList | src/lib/star-transpiler.ts:57 | each element rendered in place |
| StarTranspiler.Render | src/lib/star-transpiler.ts:39-72 | a call prints as its callee, `(` and `)`; an array in brackets; an index as its rendered target and a bracketed index; an identifier as its name |
| StarTranspiler.StarLines | src/lib/star-transpiler.ts:14-23 | one output line per assignment, in order |
| StarTranspiler.StarLine | src/lib/star-transpiler.ts:17-22 | a binding prints `id = ` followed by its rendered expression; a `_call` entry prints its bare call |
| StarTranspiler.PrintLines | src/lib/star-transpiler.ts:14-23 | the loop prints one line per assignment, each the assignment's `StarLine`, in program order |
| StarTranspiler.TranspilePineToStar | src/lib/star-transpiler.ts:8-25 | the output is the lines joined with newlines |
| StarTranspiler.ModuleEnv | src/lib/star-transpiler.ts:36 | the module's environment is the default one plus a `star` object aliasing its helpers |
| StarTranspiler.WithStar | src/lib/star-transpiler.ts:36 | adding `star` to an environment that lacks it keeps every other binding, and `star` holds the seven namespaces of the extended environment |
| StarTranspiler.RunModule | src/lib/star-transpiler.ts:36 | the module runs exactly when every embedded assignment evaluates, and returns the plots of its environment |
| StarTranspilerProps.UngroupedWithoutPairs | src/lib/star-transpiler.ts:46-56 | without a name/value pair every argument stays positional |
| StarTranspilerProps.LeadingPairIsNamed | src/lib/star-transpiler.ts:49-53 | an identifier followed by a non-identifier becomes one named entry |
| StarTranspilerProps.LaterValueWins | src/lib/star-transpiler.ts:51 | a repeated name keeps its later value |
| StarTranspilerProps.ProtoPairIsDropped | src/lib/star-transpiler.ts:51 | a `__proto__` pair disappears from the output |
| StarTranspilerProps.RenderPairCall | src/lib/star-transpiler.ts:58-62 | a pair is rendered as a trailing `{ k: v }` object |
| StarTranspilerProps.CallWithoutPairsIsCallLine | src/lib/star-transpiler.ts:57-62 | a call without pairs renders exactly as the `_call` line does |
| StarTranspilerProps.RenderStringRoundTrip | src/lib/star-transpiler.ts:66 | a rendered string literal decodes back to its text (section 7 of RFC 8259) |
| StarTranspilerProps.RenderNoNewline | src/lib/star-transpiler.ts:39-72 | a tree without newlines in its names renders on one line |
| StarTranspilerProps.StarLineNoNewline | src/lib/star-transpiler.ts:19-22 | each output line holds no newline |
| StarTranspilerProps.PrintedLinesSplitBack | src/lib/star-transpiler.ts:24 | splitting the output on newlines gives the rendered lines back |
| StarTranspilerProps.CookAsWritten | src/lib/star-transpiler.ts:35-36 | with the escaping as written, the template literal reproduces the JSON exactly when it holds no `${` |
| StarTranspilerProps.CookCorrected | src/lib/star-transpiler.ts:35-36 | with `$` escaped as well, the template literal always reproduces the JSON |
| StarTranspilerProps.ModuleEmbedsJson | src/lib/star-transpiler.ts:34-36 | the module text embeds the program's JSON so that it reads back unchanged |
| StarTranspilerProps.ModuleAsWrittenBreaks | src/lib/star-transpiler.ts:35-36 | when the JSON holds `${`, the module as written does not reproduce it |
| StarTranspilerProps.IndicatorOnlyProgram | src/lib/star-parser/index.ts:72-75 | a one-line `indicator` source parses to that indicator and nothing else |
| StarTranspilerProps.IndicatorDollarBraceBreaksModule | src/lib/star-transpiler.ts:35-36 | an `indicator` line holding `${` breaks the module as written |
| StarTranspilerProps.DollarBraceIndicatorBreaksModule | src/lib/star-transpiler.ts:35-36 | `indicator ${x}` is such a source |
| StarTranspilerProps.NamespacedCalleeNormalized | src/lib/star-ast-transform.ts:54-56 | `ta.`, `request.` and `input.` names gain the `star.` prefix |
| StarTranspilerProps.StarPathResolves | src/lib/star-transpiler.ts:36 | in the module's environment `star.` + a helper path resolves to the same value as the path |
| StarTranspilerProps.NamespacedCalleeResolves | src/lib/star-transpiler.ts:36 | a normalised `ta.`, `request.` or `input.` callee resolves to the original helper |
| StarTranspilerProps.PlotCalleeResolves | src/lib/star-transpiler.ts:36 | `star.plot` resolves to `plot` |
| Js.Get | src/lib/star-parser/gen-adapter.ts:9-10 | `v.k` is the value of a property named `k`, undefined on a non-object |
| Js.GetFieldFirst | src/lib/star-parser/gen-adapter.ts:9-10 | `o.k` is the value of the first property named `k` |
| Js.Or | src/lib/star-parser/gen-adapter.ts:9 | `a \|\| b` is `a` when it is truthy and `b` otherwise |
| Js.Leaf | src/lib/star-parser/gen-adapter.ts:30-33 | `{ type: t, k: v }` reads back its type and its field |
| Js.EscapeChar | src/lib/star-transpiler.ts:66 | `JSON.stringify` escapes exactly the quote, the backslash and the control characters, and never writes a raw newline (section 7 of RFC 8259) |
| Js.Quote | src/lib/star-transpiler.ts:66 | a stringified string is quoted and holds no raw newline |
| Js.UnescapeEscape | src/lib/star-transpiler.ts:66 | decoding the escaped text gives the text back |
| Js.QuoteRoundTrip | src/lib/star-transpiler.ts:66 | every string survives `JSON.stringify` and decoding |
| Js.Stringify | src/lib/star-transpiler.ts:35 | undefined and null print `null`; texts are quoted; arrays print in brackets and objects in braces; numbers print as `String(n)` does |
| Js.StringifyNoNewline | src/lib/star-transpiler.ts:35 | JSON text never holds a raw line break |
| GenAdapter.FirstNode | src/lib/star-parser/gen-adapter.ts:22-24 | the wrapper scan finds the first node-like element, or there is none |
| GenAdapter.StringParts | src/lib/star-parser/gen-adapter.ts:26 | a wrapper without non-empty strings joins to the empty string |
| GenAdapter.AdaptExpr | src/lib/star-parser/gen-adapter.ts:17-40 | an adapted node is an object, or the input itself when it is no number or string; null and undefined pass through |
| GenAdapter.AdaptList | src/lib/star-parser/gen-adapter.ts:36-37 | a list adapts element by element to one of the same length |
| GenAdapter.AdaptAssignment | src/lib/star-parser/gen-adapter.ts:8-11 | an assignment becomes `{ id: a.id \|\| a.name, expr: adapt(a.expr \|\| a.value) }`, and fails exactly when the assignment is nullish or its expression fails |
| GenAdapter.AdaptAssignments | src/lib/star-parser/gen-adapter.ts:8-11 | the assignments adapt one by one, in order, or the first failure fails the map |
| GenAdapter.AdaptProgram | src/lib/star-parser/gen-adapter.ts:5-15 | a generated program becomes `{ indicators, assignments }` with each assignment adapted; anything else passes through |
| GenAdapterProps.AdaptIdempotent | src/lib/star-parser/gen-adapter.ts:17-40 | adapting an adapted tree changes nothing when no fallback chain ends in a falsy non-undefined value |
| GenAdapterProps.AdaptListIdempotent | src/lib/star-parser/gen-adapter.ts:36-37 | the same for lists |
| GenAdapterProps.NullNameBreaksIdempotence | src/lib/star-parser/gen-adapter.ts:34 | `{ type: 'Binary', name: null }` adapts to a different tree the second time |
| GenAdapterProps.UnknownUnchanged | src/lib/star-parser/gen-adapter.ts:39 | a node of unknown type passes through |
| GenAdapterProps.HandTreeIsFixedPoint | src/lib/star-parser/gen-adapter.ts:17-40 | every hand-parser tree is unchanged by the adapter |
| GenAdapterProps.HandListIsFixedPoint | src/lib/star-parser/gen-adapter.ts:36-37 | the same for lists |
| GenAdapterProps.HandProgramUnchanged | src/lib/star-parser/gen-adapter.ts:5-15 | a hand-parser program is not a generated program and passes through |
| GenAdapterProps.IdentifierDropsExtraKeys | src/lib/star-parser/gen-adapter.ts:33 | an identifier keeps only its type and name |
| GenAdapterProps.WrapperUnwrapsFirstNode | src/lib/star-parser/gen-adapter.ts:20-24 | an array wrapper adapts to its first node-like element |
| GenAdapterProps.WrapperJoinsStrings | src/lib/star-parser/gen-adapter.ts:26-27 | a wrapper of strings becomes an identifier named by their join |
| GenAdapterProps.AssignmentFallbacks | src/lib/star-parser/gen-adapter.ts:9-10 | `name` and `value` stand in for a missing `id` and `expr` |
| ParserDiff.NormalizeExpr | artifacts_latest/vitest-results/scripts/generate-parser-diff.cjs:65-85 | a falsy expression is kept; an array keeps its length; a non-empty string becomes an identifier |
| ParserDiff.NormalizeList | artifacts_latest/vitest-results/scripts/generate-parser-diff.cjs:67 | a normalised list keeps its length |
| ParserDiff.NormalizeArg | artifacts_latest/vitest-results/scripts/generate-parser-diff.cjs:70 | a string argument becomes an identifier |
| ParserDiff.NormalizeArgs | artifacts_latest/vitest-results/scripts/generate-parser-diff.cjs:70 | normalised arguments keep their count |
| ParserDiff.NormalizeItem | artifacts_latest/vitest-results/scripts/generate-parser-diff.cjs:44-55 | a falsy item is skipped; an item that is neither an assignment nor a call is kept as it is |
| ParserDiff.Push | artifacts_latest/vitest-results/scripts/generate-parser-diff.cjs:47-53 | a push appends the item exactly when it is kept |
| ParserDiff.Gather | artifacts_latest/vitest-results/scripts/generate-parser-diff.cjs:43-55 | the loop succeeds exactly when every item does, and keeps at most as many items |
| ParserDiff.NormalizeItems | artifacts_latest/vitest-results/scripts/generate-parser-diff.cjs:43-55 | the generated items normalise exactly when each item does |
| ParserDiff.NormalizeGenerated | artifacts_latest/vitest-results/scripts/generate-parser-diff.cjs:43-55 | the loop over the generated items computes the normalised list |
| ParserDiff.NormalizeHandEntries | artifacts_latest/vitest-results/scripts/generate-parser-diff.cjs:60 | hand assignments map one to one |
| ParserDiff.NormalizeAst | artifacts_latest/vitest-results/scripts/generate-parser-diff.cjs:38-63 | a falsy tree, or one without an assignments array, passes through |
| ParserDiff.Normalized | artifacts_latest/vitest-results/scripts/generate-parser-diff.cjs:94-95 | a falsy tree or one carrying an error is not normalised |
| ParserDiff.Fixtures | artifacts_latest/vitest-results/scripts/generate-parser-diff.cjs:28-36 | without a fixtures directory the one sample is used; otherwise its source files |
| ParserDiff.SourceFiles | artifacts_latest/vitest-results/scripts/generate-parser-diff.cjs:32 | exactly the files ending in `.pine` or `.txt` are kept |
| ParserDiff.MapAll | artifacts_latest/vitest-results/scripts/generate-parser-diff.cjs:88-97 | a map succeeds exactly when every element does, element by element |
| ParserDiff.DiffsOf | artifacts_latest/vitest-results/scripts/generate-parser-diff.cjs:88-97 | one diff per fixture, in order |
| ParserDiff.CollectDiffs | artifacts_latest/vitest-results/scripts/generate-parser-diff.cjs:87-97 | the loop over the fixtures computes the diffs |
| ParserDiff.DiffOf | artifacts_latest/vitest-results/scripts/generate-parser-diff.cjs:89-97 | an entry exists exactly when both trees normalise, carries the fixture name, and a missing parser gives `null` |
| ParserDiff.Differs | artifacts_latest/vitest-results/scripts/generate-parser-diff.cjs:107-118 | a `null` tree always differs; a truthy, error-free tree equal on both sides never does |
| ParserDiff.AnyDiff | artifacts_latest/vitest-results/scripts/generate-parser-diff.cjs:106-119 | the scan reports a difference exactly when some fixture differs |
| ParserDiff.ExitCode | artifacts_latest/vitest-results/scripts/generate-parser-diff.cjs:121-127 | the exit code is 2 when a difference exists and 0 otherwise |
| ParserDiff.Run | artifacts_latest/vitest-results/scripts/generate-parser-diff.cjs:87-127 | the script exits with 2 exactly when some fixture differs |
| ParserDiffProps.CallNormalized | artifacts_latest/vitest-results/scripts/generate-parser-diff.cjs:69-71 | a call with normalised arguments is a fixed point |
| ParserDiffProps.IndexNormalized | artifacts_latest/vitest-results/scripts/generate-parser-diff.cjs:72-74 | an index of normalised parts is a fixed point |
| ParserDiffProps.ArrayNormalized | artifacts_latest/vitest-results/scripts/generate-parser-diff.cjs:75-77 | an array of normalised items is a fixed point |
| ParserDiffProps.LeafNormalized | artifacts_latest/vitest-results/scripts/generate-parser-diff.cjs:78-80 | identifier, number and string leaves are fixed points |
| ParserDiffProps.UnknownNormalized | artifacts_latest/vitest-results/scripts/generate-parser-diff.cjs:83-84 | a node of unknown type passes through |
| ParserDiffProps.HandTreeNormalized | artifacts_latest/vitest-results/scripts/generate-parser-diff.cjs:65-85 | every operator-free hand-parser tree is already normal |
| ParserDiffProps.HandListNormalized | artifacts_latest/vitest-results/scripts/generate-parser-diff.cjs:67 | the same for lists |
| ParserDiffProps.HandArgsNormalized | artifacts_latest/vitest-results/scripts/generate-parser-diff.cjs:70 | the same for call arguments |
| ParserDiffProps.HandEntriesNormalized | artifacts_latest/vitest-results/scripts/generate-parser-diff.cjs:60 | the same for hand assignments |
| ParserDiffProps.HandProgramNormalized | artifacts_latest/vitest-results/scripts/generate-parser-diff.cjs:59-61 | an operator-free hand program is unchanged by normalisation |
| ParserDiffProps.ParsedProgramNormalized | artifacts_latest/vitest-results/scripts/generate-parser-diff.cjs:59-61 | whatever the hand parser produces is unchanged by normalisation |
| ParserDiffProps.GeneratedItems | artifacts_latest/vitest-results/scripts/generate-parser-diff.cjs:42-55 | the generated parser's items, one per assignment |
| ParserDiffProps.GeneratedItemNormalized | artifacts_latest/vitest-results/scripts/generate-parser-diff.cjs:46-47 | a generated assignment normalises to the hand assignment |
| ParserDiffProps.GatherSnoc | artifacts_latest/vitest-results/scripts/generate-parser-diff.cjs:44-55 | the loop over one more item appends its result |
| ParserDiffProps.GeneratedItemsNormalized | artifacts_latest/vitest-results/scripts/generate-parser-diff.cjs:42-55 | the generated items normalise to the hand assignments |
| ParserDiffProps.GeneratedProgramMatchesHand | artifacts_latest/vitest-results/scripts/generate-parser-diff.cjs:38-63 | the generated shape of a program normalises to its hand shape |
| ParserDiffProps.GatherAppend | artifacts_latest/vitest-results/scripts/generate-parser-diff.cjs:44-55 | the loop over two runs of items is the concatenation of the two |
| ParserDiffProps.FalsyItemSkipped | artifacts_latest/vitest-results/scripts/generate-parser-diff.cjs:45 | a falsy item contributes nothing |
| ParserDiffProps.NormalizedProgramClean | artifacts_latest/vitest-results/scripts/generate-parser-diff.cjs:56-60 | normalising a clean tree gives a clean tree |
| ParserDiffProps.SameTreeNoDiff | artifacts_latest/vitest-results/scripts/generate-parser-diff.cjs:108-115 | two identical clean trees are no difference |
| ParserDiffProps.MissingParserDiffers | artifacts_latest/vitest-results/scripts/generate-parser-diff.cjs:89-109 | a missing parser gives `null` and a difference |
| ParserDiffProps.ThrowingParserDiffers | artifacts_latest/vitest-results/scripts/generate-parser-diff.cjs:91-109 | a throwing parser gives `{ error }` and a difference |
| ParserDiffProps.NoHandParserFails | artifacts_latest/vitest-results/scripts/generate-parser-diff.cjs:88-123 | without a hand parser some fixture differs exactly when there is a fixture: the script fails on the built-in sample and passes on a fixtures directory with no source file |
| ChartMath.Abs | src/utils/drawingPrimitives.ts:185 | `Math.abs` is non-negative and is the value or its negation |
| ChartMath.AbsInt | src/components/ChartDrawingLayer.tsx:491 | the same on integers |
| ChartMath.Round | src/utils/drawingPrimitives.ts:199 | `Math.round` lies within half a unit of its argument |
| ChartMath.RoundInt | src/utils/drawingPrimitives.ts:199 | rounding an integer gives it back |
| ChartMath.MinInt | src/components/ChartDrawingLayer.tsx:489 | `Math.min` is a lower bound and one of its arguments |
| ChartMath.MaxInt | src/components/ChartDrawingLayer.tsx:490 | `Math.max` is an upper bound and one of its arguments |
| ChartMath.MinReal | src/components/ChartDrawingLayer.tsx:156 | the same on numbers |
| ChartMath.MaxReal | src/components/ChartDrawingLayer.tsx:531 | the same on numbers |
| DrawingPrimitives.ToolOf | src/store/drawingStore.ts:31 | a tool name read back names that tool |
| DrawingPrimitives.ToolOfName | src/store/drawingStore.ts:31 | every tool's name reads back as the tool |
| DrawingPrimitives.ToolNameHasNoDash | src/store/drawingStore.ts:31 | no tool name holds a dash, so an id's prefix names its tool |
| DrawingPrimitives.Spread | src/utils/drawingPrimitives.ts:25 | `{ ...base, ...over }` has the keys of both, and `over` wins |
| DrawingPrimitives.DrawingId | src/utils/drawingPrimitives.ts:21 | an id is the tool name, a dash and the time stamp |
| DrawingPrimitives.DrawingIdInjective | src/utils/drawingPrimitives.ts:21 | two drawings share an id only when kind and stamp agree |
| DrawingPrimitives.Create | src/utils/drawingPrimitives.ts:15-179 | a new drawing is visible, unselected, holds the given points and layers defaults, overrides and custom options |
| DrawingPrimitives.CreateTrendLine | src/utils/drawingPrimitives.ts:15-28 | a trend line holds the two points and the default options under the custom ones |
| DrawingPrimitives.CreateHorizontalLine | src/utils/drawingPrimitives.ts:30-42 | a horizontal line holds its one point |
| DrawingPrimitives.CreateVertical | src/utils/drawingPrimitives.ts:44-58 | a vertical line keeps only its start point |
| DrawingPrimitives.CreateRuler | src/utils/drawingPrimitives.ts:60-80 | a ruler holds both points and the ruler options |
| DrawingPrimitives.CreateFibonacci | src/utils/drawingPrimitives.ts:82-100 | a Fibonacci drawing holds both points and the level options |
| DrawingPrimitives.CreateRectangle | src/utils/drawingPrimitives.ts:102-120 | a rectangle holds both corners and the shape options |
| DrawingPrimitives.CreateCircle | src/utils/drawingPrimitives.ts:122-140 | a circle holds its centre and edge and the shape options |
| DrawingPrimitives.CreateText | src/utils/drawingPrimitives.ts:142-160 | a note holds its point and its text, `'New Note'` when none is given |
| DrawingPrimitives.CreateDraw | src/utils/drawingPrimitives.ts:162-179 | a freehand drawing keeps its points as given |
| DrawingPrimitives.FibonacciDefaults | src/utils/drawingPrimitives.ts:82-100 | the default levels rise from 0 to 1 and the colour is amber |
| DrawingPrimitives.TextDefaults | src/utils/drawingPrimitives.ts:142-160 | a note reads `'New Note'` in white by default |
| DrawingPrimitives.CustomColourWins | src/utils/drawingPrimitives.ts:60-80 | a custom colour overrides the ruler's green |
| DrawingPrimitives.SecondsPerBar | src/utils/drawingPrimitives.ts:188-199 | a bar lasts a positive number of seconds, one day for every unknown timeframe |
| DrawingPrimitives.CalculateMeasurements | src/utils/drawingPrimitives.ts:182-207 | the price change, the absolute time span, the bar count rounded to the nearest bar and the percentage of the start price |
| DrawingPrimitives.BarsBound | src/utils/drawingPrimitives.ts:199 | a rounded bar count lies within half a bar of the span |
| DrawingPrimitives.MeasurementsSymmetric | src/utils/drawingPrimitives.ts:182-207 | swapping the ends keeps span and bars and negates the price change |
| DrawingPrimitives.LowerCaseHourIsDaily | src/utils/drawingPrimitives.ts:188-199 | the lookup is case-sensitive: `1h` counts as a day |
| Drawings.Updated | src/store/drawingStore.ts:76-78 | the drawings with the id take the patch and the others stay |
| Drawings.Patched | src/store/drawingStore.ts:77 | `{ ...d, ...updates }`: each supplied field replaces the drawing's own and each missing one keeps it |
| Drawings.Removed | src/store/drawingStore.ts:79-81 | exactly the drawings with other ids remain |
| Drawings.Toggled | src/store/drawingStore.ts:82-84 | visibility flips on the drawings with the id only |
| Drawings.Selected | src/store/drawingStore.ts:85-88 | a drawing is selected exactly when it has the id; nothing else changes |
| Drawings.Deselected | src/store/drawingStore.ts:89-92 | every drawing is unselected; nothing else changes |
| Drawings.Incremented | src/store/drawingStore.ts:98-106 | the id's count goes up by one, others stay |
| Drawings.MergedDrag | src/store/drawingStore.ts:94-96 | each supplied drag field replaces the state's own and each missing one keeps it |
| Drawings.DrawingStore.constructor | src/store/drawingStore.ts:62-70 | the store starts with the persisted tool (lines 108-111), no drawings, no selection, no counts and no drag |
| Drawings.DrawingStore.SetActiveTool | src/store/drawingStore.ts:71 | only the active tool changes |
| Drawings.DrawingStore.AddDrawing | src/store/drawingStore.ts:72-75 | the drawing is appended and the tool is cleared |
| Drawings.DrawingStore.UpdateDrawing | src/store/drawingStore.ts:76-78 | only the drawings change, as `Updated` says |
| Drawings.DrawingStore.RemoveDrawing | src/store/drawingStore.ts:79-81 | only the drawings change, as `Removed` says |
| Drawings.DrawingStore.ToggleVisibility | src/store/drawingStore.ts:82-84 | only the drawings change, as `Toggled` says |
| Drawings.DrawingStore.SelectDrawing | src/store/drawingStore.ts:85-88 | the selection records the id, even an unknown one |
| Drawings.DrawingStore.DeselectDrawing | src/store/drawingStore.ts:89-92 | every drawing is unselected and the selection cleared |
| Drawings.DrawingStore.ClearDrawings | src/store/drawingStore.ts:93 | only the list is emptied |
| Drawings.DrawingStore.SetDragState | src/store/drawingStore.ts:94-96 | the drag state merges the patch |
| Drawings.DrawingStore.IncrementClickCount | src/store/drawingStore.ts:98-106 | returns the previous count plus one and stores it |
| Drawings.DrawingStore.ResetClickCount | src/store/drawingStore.ts:107 | the id's count becomes 0 |
| Drawings.UpdateAbsentId | src/store/drawingStore.ts:76-78 | updating an unknown id changes nothing |
| Drawings.UpdateKeepsIds | src/store/drawingStore.ts:76-78 | a patch without an id keeps every id |
| Drawings.RemovedAppend | src/store/drawingStore.ts:79-81 | removal keeps the order of the rest |
| Drawings.RemovedAbsent | src/store/drawingStore.ts:79-81 | removing an unknown id changes nothing |
| Drawings.RemovedTwice | src/store/drawingStore.ts:79-81 | removal is idempotent |
| Drawings.ToggledTwice | src/store/drawingStore.ts:82-84 | toggling twice restores the list |
| Drawings.DeselectThenSelect | src/store/drawingStore.ts:85-92 | deselecting leaves nothing selected and does not change a later selection |
| Drawings.ResetThenIncrement | src/store/drawingStore.ts:98-107 | after a reset the next click counts 1, and other ids are untouched |
| Drawings.MergedDragIdempotent | src/store/drawingStore.ts:94-96 | merging the same patch twice is merging it once, and the empty patch changes nothing |
| AdvancedDrawing.SecondClickDrawing | src/hooks/useAdvancedDrawing.ts:70-99 | a second click creates a drawing exactly for the listed tools, of that tool, with one point for lines and notes and two otherwise |
| AdvancedDrawing.MouseDownStep | src/hooks/useAdvancedDrawing.ts:31-109 | a press adds at most one drawing, at the end, and never removes one; adding one drops the tool, the start point and the drag; selection and click counts are untouched |
| AdvancedDrawing.MouseMoveStep | src/hooks/useAdvancedDrawing.ts:123-166 | moving keeps the start point, never starts a stroke, and changes the stroke only for the freehand tool |
| AdvancedDrawing.MouseUpStep | src/hooks/useAdvancedDrawing.ts:168-188 | a release adds at most one drawing, at the end, keeps the start point, and does nothing unless the freehand tool is active |
| AdvancedDrawing.ToolChangeStep | src/hooks/useAdvancedDrawing.ts:112-121 | the drawings and the tool are kept; leaving the drawing tools resets the hook and ends any drag; a drawing tool changes nothing |
| AdvancedDrawing.KeyDownStep | src/hooks/useAdvancedDrawing.ts:190-206 | keys keep the drawings and the stroke; Escape drops the tool, the start point and the drag; other keys without Alt change nothing |
| AdvancedDrawing.DrawingClickStep | src/hooks/useAdvancedDrawing.ts:209-226 | a click selects the drawing, removes it or keeps the drawings; the tool and the drag are kept; outside the eraser the click count goes up by one or restarts at 0 |
| AdvancedDrawing.AdvancedDrawing.constructor | src/hooks/useAdvancedDrawing.ts:24-29 | the hook starts idle over the store |
| AdvancedDrawing.AdvancedDrawing.MouseDown | src/hooks/useAdvancedDrawing.ts:31-109 | hook and store take the mousedown step |
| AdvancedDrawing.AdvancedDrawing.MouseMove | src/hooks/useAdvancedDrawing.ts:123-166 | the hook takes the mousemove step; the store is untouched |
| AdvancedDrawing.AdvancedDrawing.MouseUp | src/hooks/useAdvancedDrawing.ts:168-188 | hook and store take the mouseup step |
| AdvancedDrawing.AdvancedDrawing.ToolChanged | src/hooks/useAdvancedDrawing.ts:112-121 | hook and store take the tool-change step |
| AdvancedDrawing.AdvancedDrawing.KeyDown | src/hooks/useAdvancedDrawing.ts:190-206 | hook and store take the keydown step |
| AdvancedDrawing.AdvancedDrawing.DrawingClick | src/hooks/useAdvancedDrawing.ts:209-226 | the store takes the click step |
| AdvancedDrawing.NotCursor | src/hooks/useAdvancedDrawing.ts:34 | a tool name not spelled `cursor…` is not a cursor |
| AdvancedDrawing.IgnoredMouseDown | src/hooks/useAdvancedDrawing.ts:32-37 | without a chart, or with a cursor, the ruler, the eraser or select, mousedown changes nothing |
| AdvancedDrawing.TwoClicks | src/hooks/useAdvancedDrawing.ts:55-104 | the first click records the start and starts a drag; the second adds the drawing, clears the tool and ends the drag |
| AdvancedDrawing.UnlistedToolAddsNothing | src/hooks/useAdvancedDrawing.ts:70-104 | every tool outside the second-click switch and the ignored set creates nothing on two clicks: the first click stores its point, the second clears it |
| AdvancedDrawing.MouseMoveKeepsSpaced | src/hooks/useAdvancedDrawing.ts:131-148 | a freehand stroke only grows, by at most one point, and keeps its points spaced |
| AdvancedDrawing.FreehandStart | src/hooks/useAdvancedDrawing.ts:44-52 | a freehand stroke starts at the press and starts a drag |
| AdvancedDrawing.FreehandFinish | src/hooks/useAdvancedDrawing.ts:168-188 | releasing a stroke appends one freehand drawing with the stroke's points |
| AdvancedDrawing.EscapeClearsEverything | src/hooks/useAdvancedDrawing.ts:112-206 | Escape then the tool change leaves the hook idle, no tool and no drag, drawings kept |
| AdvancedDrawing.ShortcutsSelectTools | src/hooks/useAdvancedDrawing.ts:196-204 | Alt+T, Alt+H and Alt+F pick the trend line, the horizontal line and Fibonacci |
| AdvancedDrawing.EraserRemoves | src/hooks/useAdvancedDrawing.ts:209-214 | with the eraser a click removes the drawing and resets its count |
| AdvancedDrawing.ThreeClicksDelete | src/hooks/useAdvancedDrawing.ts:209-226 | the first click selects; the third removes the drawing and resets its count |
| DrawingTools.PriceOr | artifacts_latest/vitest-results/src/hooks/useDrawingTools.tsx:84-85 | `p.price \|\| d`: a zero or missing price falls back |
| DrawingTools.RulerMeasure | artifacts_latest/vitest-results/src/hooks/useDrawingTools.tsx:81-92 | the price change, its percentage and the bar count rounded from the span in days |
| DrawingTools.RulerMeasureSymmetric | artifacts_latest/vitest-results/src/hooks/useDrawingTools.tsx:81-92 | swapping the ends keeps the bars and negates the price change |
| DrawingTools.Extended | artifacts_latest/vitest-results/src/hooks/useDrawingTools.tsx:64-71 | a move keeps the first point and makes the new point the last, at most two points |
| DrawingTools.Deleted | artifacts_latest/vitest-results/src/hooks/useDrawingTools.tsx:99-101 | exactly the drawings with other ids remain |
| DrawingTools.DeletedAppend | artifacts_latest/vitest-results/src/hooks/useDrawingTools.tsx:99-101 | deletion keeps the order of the rest |
| DrawingTools.SelectedOnly | artifacts_latest/vitest-results/src/hooks/useDrawingTools.tsx:103-105 | exactly the drawings with the id are selected; nothing else changes |
| DrawingTools.StoredTool | artifacts_latest/vitest-results/src/hooks/useDrawingTools.tsx:114 | `select` is stored as no tool, every other tool as itself |
| DrawingTools.InitialTool | artifacts_latest/vitest-results/src/hooks/useDrawingTools.tsx:37 | the hook starts with the stored tool, or `select` |
| DrawingTools.StoredToolRoundTrip | artifacts_latest/vitest-results/src/hooks/useDrawingTools.tsx:112-115 | a stored tool reads back as the tool set when the hook initialises from the store (line 37) |
| DrawingTools.DrawingToolsHook.Exposed | artifacts_latest/vitest-results/src/hooks/useDrawingTools.tsx:120 | the exposed list is the finished drawings, then the one in progress |
| DrawingTools.DrawingToolsHook.constructor | artifacts_latest/vitest-results/src/hooks/useDrawingTools.tsx:35-37 | the hook starts with the stored tool and no drawings |
| DrawingTools.DrawingToolsHook.Sync | artifacts_latest/vitest-results/src/hooks/useDrawingTools.tsx:40-44 | a truthy store tool is copied in; otherwise nothing changes |
| DrawingTools.DrawingToolsHook.StartDrawing | artifacts_latest/vitest-results/src/hooks/useDrawingTools.tsx:49-62 | select and the eraser start nothing; other tools start a drawing at the point |
| DrawingTools.DrawingToolsHook.UpdateDrawing | artifacts_latest/vitest-results/src/hooks/useDrawingTools.tsx:64-71 | a move extends the drawing in progress, if any |
| DrawingTools.DrawingToolsHook.FinishDrawing | artifacts_latest/vitest-results/src/hooks/useDrawingTools.tsx:73-97 | a drawing with two points or more is finished and kept; the progress is cleared |
| DrawingTools.DrawingToolsHook.DeleteDrawing | artifacts_latest/vitest-results/src/hooks/useDrawingTools.tsx:99-101 | the list loses the drawings with the id |
| DrawingTools.DrawingToolsHook.SelectDrawing | artifacts_latest/vitest-results/src/hooks/useDrawingTools.tsx:103-105 | exactly the drawings with the id are selected |
| DrawingTools.DrawingToolsHook.ClearDrawings | artifacts_latest/vitest-results/src/hooks/useDrawingTools.tsx:107-109 | the list is emptied |
| DrawingTools.DrawingToolsHook.SetActiveToolSynced | artifacts_latest/vitest-results/src/hooks/useDrawingTools.tsx:112-115 | the hook takes the tool and the store records it |
| DrawingTools.Finished | artifacts_latest/vitest-results/src/hooks/useDrawingTools.tsx:76-93 | a finished two-point ruler carries its measurements; anything else is kept as it is |
| DrawingTools.UpdatesKeepStart | artifacts_latest/vitest-results/src/hooks/useDrawingTools.tsx:64-71 | any run of moves leaves the start and the last move |
| MarketData.Interval | src/hooks/useMarketData.ts:7-30 | a timeframe maps, ignoring case, to an exchange interval of the table; a missing or empty one is `1d` |
| MarketData.ToLowerIdempotent | src/hooks/useMarketData.ts:9-20 | lower-casing twice is lower-casing once |
| MarketData.ToLowerHasNoCapitalM | src/hooks/useMarketData.ts:9-20 | a lower-cased timeframe holds no `M` |
| MarketData.NeverMonthly | src/hooks/useMarketData.ts:9-20 | the monthly interval is never requested: `1M` reads as one minute |
| MarketData.IntervalIgnoresCase | src/hooks/useMarketData.ts:7-30 | the interval depends only on the lower-cased timeframe |
| MarketData.UnmappedIsDaily | src/hooks/useMarketData.ts:21-29 | a timeframe whose lower-case form is not in the table passes every fallback and maps to `1d` |
| MarketData.NormalizeSymbol | src/hooks/useMarketData.ts:57 | the first slash is dropped and no lower-case letter remains |
| MarketData.NormalizePair | src/hooks/useMarketData.ts:57 | `BASE/QUOTE` becomes the upper-cased pair without the slash |
| MarketData.KlineCandle | src/hooks/useMarketData.ts:68-77 | a row of six fields or more becomes a candle: seconds rounded down from milliseconds, and the five prices and volume in order |
| MarketData.KlineCandles | src/hooks/useMarketData.ts:66-78 | one candle per row, none without data |
| MarketData.Merged | src/hooks/useMarketData.ts:133-144 | the new candle ends the buffer; it replaces a last candle of the same time, or drops the oldest past the limit |
| MarketData.MergedWithinLimit | src/hooks/useMarketData.ts:140-142 | the buffer never grows past the limit |
| MarketData.AppendIncreasing | src/hooks/useMarketData.ts:133-144 | a later candle keeps the times increasing |
| MarketData.MergedIncreasing | src/hooks/useMarketData.ts:133-144 | merging a candle not older than the last keeps the times increasing |
| MarketData.Pow2 | src/hooks/useMarketData.ts:160 | `Math.pow(2, n)` is at least one |
| MarketData.Pow2Monotone | src/hooks/useMarketData.ts:160 | powers of two grow with the exponent |
| MarketData.Backoff | src/hooks/useMarketData.ts:160 | the backoff doubles from 500 ms and is capped at 30 s from the sixth attempt |
| MarketData.Wait | src/hooks/useMarketData.ts:161-162 | the jittered wait is at least 200 ms, and within 200 ms below the backoff |
| MarketData.BackoffMonotone | src/hooks/useMarketData.ts:160 | later attempts never wait less before jitter |
| MarketData.LiveFeed.constructor | src/hooks/useMarketData.ts:32-41 | the feed starts empty with no reconnect attempts |
| MarketData.LiveFeed.OnCandle | src/hooks/useMarketData.ts:120-148 | the buffer takes the merge |
| MarketData.LiveFeed.OnOpen | src/hooks/useMarketData.ts:114-118 | an open connection resets the attempts |
| MarketData.LiveFeed.OnClose | src/hooks/useMarketData.ts:152-171 | a live close counts one more attempt, at most 10, and schedules the jittered wait; a cancelled one does nothing |
| MarketData.LiveFeed.OnSetup | src/hooks/useMarketData.ts:98-112 | a new socket zeroes the attempt counter and keeps the candles |
| MarketData.LiveFeed.Outage | src/hooks/useMarketData.ts:152-170 | an outage as written (each reconnect goes through the setup) waits as `OutageWaits` with the reset |
| MarketData.LiveFeed.OutageKeepingCount | src/hooks/useMarketData.ts:157-162 | the same outage with the counter kept across reconnects waits as `OutageWaits` without the reset |
| MarketData.BackoffNeverEscalates | src/hooks/useMarketData.ts:112 | as written, every wait of an outage is the attempt-1 wait, between 800 and 1199 ms: the back-off never grows |
| MarketData.OutageCountsCloses | src/hooks/useMarketData.ts:158 | with the counter kept, the i-th close counts attempt min(10, attempts + i + 1) |
| MarketData.LongOutageWaits | src/hooks/useMarketData.ts:157-162 | with the counter zeroed only on open, the i-th wait of an outage is the back-off of attempt min(10, i + 1) with its jitter, 30 s give or take 200 ms from the sixth on, and the back-off never shrinks |
| MarketData.UnchangedReconnects | src/hooks/useMarketData.ts:166 | a reconnect proceeds while the symbol and timeframe are unchanged |
| ChartDrawingLayer.NearestIn | src/components/ChartDrawingLayer.tsx:76-80 | the scan finds the first bar nearest the time |
| ChartDrawingLayer.ResolveIndexSpec | src/components/ChartDrawingLayer.tsx:70-82 | no index without bars or a time; the rounded time when it is a bar index; otherwise the first nearest bar |
| ChartDrawingLayer.ResolveIndex | src/components/ChartDrawingLayer.tsx:70-82 | the loop computes that index |
| ChartDrawingLayer.ParseInt | src/components/ChartDrawingLayer.tsx:88 | `parseInt` fails exactly when no digit follows the blanks and the sign |
| ChartDrawingLayer.ParseIntOr1 | src/components/ChartDrawingLayer.tsx:88 | `parseInt(…) || 1` is never zero: a parsed non-zero number is kept, and no digits give 1 |
| ChartDrawingLayer.ParseIntOfDigits | src/components/ChartDrawingLayer.tsx:88 | a number's digits followed by a non-digit parse back to the number |
| ChartDrawingLayer.DigitRunPrefix | src/components/ChartDrawingLayer.tsx:88 | the digit run stops at the first non-digit |
| ChartDrawingLayer.UnitNumber | src/components/ChartDrawingLayer.tsx:86-88 | a timeframe `<k><unit>` lower-cases to itself, ends with its unit, and strips to `k` |
| ChartDrawingLayer.MinutesTimeframe | src/components/ChartDrawingLayer.tsx:87-90 | on a `<k>m` timeframe the span reads `bars·k` minutes |
| ChartDrawingLayer.HoursTimeframe | src/components/ChartDrawingLayer.tsx:91-94 | on a `<k>h` timeframe the span reads `bars·k·60` minutes |
| ChartDrawingLayer.BarsToTimeString | src/components/ChartDrawingLayer.tsx:84-97 | no timeframe gives `<bars> bars`; a lower-case `…m` multiplies by its minutes and `…h` by its hours times 60, an unreadable or zero count being 1; `1d` and `d` give `<bars>D`; anything else ` bars` |
| ChartDrawingLayer.MonthsReadAsMinutes | src/components/ChartDrawingLayer.tsx:86-89 | a month timeframe `kM` lower-cases to `km` and is read as k minutes a bar |
| ChartDrawingLayer.DaysOtherThanOneReadAsBars | src/components/ChartDrawingLayer.tsx:95-96 | a day timeframe `kd` with k other than 1 reads as a bar count |
| ChartDrawingLayer.VolumeSumAppend | src/components/ChartDrawingLayer.tsx:493 | the volume of two runs of bars is the sum of their volumes |
| ChartDrawingLayer.VolumeSum | src/components/ChartDrawingLayer.tsx:493 | non-negative volumes sum to a non-negative volume, and one bar sums to its own volume |
| ChartDrawingLayer.PercentOf | src/components/ChartDrawingLayer.tsx:481 | the percentage has the sign of the change and is the change per hundred of the absolute base |
| ChartDrawingLayer.PriceChange | src/components/ChartDrawingLayer.tsx:480-481 | the change is end minus start, and the percentage is zero without a non-zero start price |
| ChartDrawingLayer.BarSpan | src/components/ChartDrawingLayer.tsx:485-494 | the bar count is the distance between the indices, with its text |
| ChartDrawingLayer.BarSpanSymmetric | src/components/ChartDrawingLayer.tsx:485-494 | the span is the same both ways and its volume covers the bars from the earlier index to the later one |
| ChartDrawingLayer.SpanBetween | src/components/ChartDrawingLayer.tsx:489-493 | the bar count is b - a with its text, and the volume is that of bar a plus the bars after it up to b |
| ChartDrawingLayer.VolumeSplitFirst | src/components/ChartDrawingLayer.tsx:493 | the volume of bars a..b is that of bar a plus that of the rest |
| ChartDrawingLayer.RulerStatsOf | src/components/ChartDrawingLayer.tsx:477-496 | the price change; volume and text exactly when both times resolve to bars; otherwise the raw time distance as bars |
| ChartDrawingLayer.RulerStatsSymmetric | src/components/ChartDrawingLayer.tsx:477-496 | swapping the ends keeps bars, text and volume and negates the price change |
| ChartDrawingLayer.RenderClamp | src/components/ChartDrawingLayer.tsx:265-270 | the box is drawn no nearer than the margin to the right or bottom edge, and where it fits it is not moved |
| ChartDrawingLayer.DragClamp | src/components/ChartDrawingLayer.tsx:559-560 | the dragged box stays at least the margin from the left and top, and where it fits it is not moved |
| ChartDrawingLayer.ClampsCompared | src/components/ChartDrawingLayer.tsx:265-270 | the render clamp agrees with the drag clamp of lines 559-560 when the box fits and disagrees only when it does not |
| ChartDrawingLayer.RoundedMid | src/components/ChartDrawingLayer.tsx:468 | the cloud sits within half a pixel of the midpoint |
| ChartDrawingLayer.Ruler.constructor | src/components/ChartDrawingLayer.tsx:56-66 | the ruler starts idle with no cloud |
| ChartDrawingLayer.Ruler.Clear | src/components/ChartDrawingLayer.tsx:165-177 | clearing returns the ruler to idle and picks the cross cursor |
| ChartDrawingLayer.Ruler.MouseDown | src/components/ChartDrawingLayer.tsx:447-513 | the clicks cycle idle, measuring, finalized: the first starts, the second finalizes and reports the ruler with its statistics, the third clears |
| ChartDrawingLayer.Ruler.MouseMove | src/components/ChartDrawingLayer.tsx:536-546 | while measuring with the ruler tool active, the end and the cloud follow the pointer; otherwise nothing moves |
| ChartDrawingLayer.ThreeClicksCycle | src/components/ChartDrawingLayer.tsx:447-513 | three clicks return the ruler to its phase, and every click changes it |
| ChartDrawingLayer.CloudDragged | src/components/ChartDrawingLayer.tsx:529-531 | a dragged cloud never leaves the top-left edge |
| ChartSettings.WithPreset | artifacts_latest/vitest-results/src/components/ChartSettingsDialog.tsx:278 | a preset's keys take its values; every other setting is kept |
| ChartSettings.PresetIdempotent | artifacts_latest/vitest-results/src/components/ChartSettingsDialog.tsx:278 | applying a preset twice is applying it once |
| ChartSettings.PresetsTouchThemeOnly | artifacts_latest/vitest-results/src/components/ChartSettingsDialog.tsx:70-72 | the three presets set the same five colour keys and nothing else |
| ChartSettings.Precision | artifacts_latest/vitest-results/src/components/ChartSettingsDialog.tsx:306 | the precision is clamped to 0 through 8, and a missing number is 0 |
| ChartSettings.PrecisionIdempotent | artifacts_latest/vitest-results/src/components/ChartSettingsDialog.tsx:306 | clamping a clamped precision changes nothing |
| ChartSettings.Fresh | artifacts_latest/vitest-results/src/components/ChartSettingsDialog.tsx:61-67 | a dialog created again starts from the defaults over the same storage |
| ChartSettings.MountStep | artifacts_latest/vitest-results/src/components/ChartSettingsDialog.tsx:75-94 | mounting loads the stored profiles and active name, and the active profile's settings, else the stored settings |
| ChartSettings.SaveStep | artifacts_latest/vitest-results/src/components/ChartSettingsDialog.tsx:174-189 | saving stores the settings, and writes them into the active profile when one is named, then closes |
| ChartSettings.SaveAsStep | artifacts_latest/vitest-results/src/components/ChartSettingsDialog.tsx:193-206 | a blank name changes nothing; otherwise the trimmed name becomes the active profile holding the settings, stored |
| ChartSettings.LoadStep | artifacts_latest/vitest-results/src/components/ChartSettingsDialog.tsx:208-215 | loading a known profile makes its settings current and its name active; an unknown one changes nothing |
| ChartSettings.DeleteStep | artifacts_latest/vitest-results/src/components/ChartSettingsDialog.tsx:217-232 | deleting a known profile removes and stores it, and clears the active name when it was active |
| ChartSettings.DeleteActiveStep | artifacts_latest/vitest-results/src/components/ChartSettingsDialog.tsx:262 | the Delete button removes the active profile, if any |
| ChartSettings.SaveAsThenLoad | artifacts_latest/vitest-results/src/components/ChartSettingsDialog.tsx:193-215 | a profile saved under a name loads back the settings it was saved with |
| ChartSettings.DeleteUndoesSaveAs | artifacts_latest/vitest-results/src/components/ChartSettingsDialog.tsx:193-232 | deleting a freshly saved new profile restores the profiles |
| ChartSettings.SaveSurvivesRemount | artifacts_latest/vitest-results/src/components/ChartSettingsDialog.tsx:75-189 | after a save with an active profile, remounting restores the settings, profiles and active name |
| ChartSettings.PlainSaveSurvivesRemount | artifacts_latest/vitest-results/src/components/ChartSettingsDialog.tsx:75-189 | without profiles, remounting after a save restores the settings |
| ChartSettings.Dialog.constructor | artifacts_latest/vitest-results/src/components/ChartSettingsDialog.tsx:61-67 | the dialog starts from the defaults over the stored values |
| ChartSettings.Dialog.Mount | artifacts_latest/vitest-results/src/components/ChartSettingsDialog.tsx:75-94 | the dialog takes the mount step |
| ChartSettings.Dialog.Save | artifacts_latest/vitest-results/src/components/ChartSettingsDialog.tsx:174-189 | the dialog takes the save step and hands back the settings saved |
| ChartSettings.Dialog.SaveAsProfile | artifacts_latest/vitest-results/src/components/ChartSettingsDialog.tsx:193-206 | the dialog takes the save-as step |
| ChartSettings.Dialog.LoadProfile | artifacts_latest/vitest-results/src/components/ChartSettingsDialog.tsx:208-215 | the dialog takes the load step |
| ChartSettings.Dialog.DeleteProfile | artifacts_latest/vitest-results/src/components/ChartSettingsDialog.tsx:217-232 | the dialog takes the delete step |
| ChartSettings.Dialog.ApplyPreset | artifacts_latest/vitest-results/src/components/ChartSettingsDialog.tsx:278 | only the settings change, by the preset |
| ChartSettings.Dialog.SetPrecision | artifacts_latest/vitest-results/src/components/ChartSettingsDialog.tsx:306 | only the precision setting changes, clamped |
| IndicatorsModal.Without | src/components/IndicatorsModal.tsx:57 | exactly the indicators with other ids remain |
| IndicatorsModal.WithoutAppend | src/components/IndicatorsModal.tsx:57 | deletion keeps the order of the rest |
| IndicatorsModal.WithoutAbsent | src/components/IndicatorsModal.tsx:57 | deleting an unknown id changes nothing |
| IndicatorsModal.Edited | src/components/IndicatorsModal.tsx:71-73 | the entries with the id take the new name and params; the others stay |
| IndicatorsModal.Find | src/components/IndicatorsModal.tsx:64 | the lookup finds an entry with the id exactly when one exists |
| IndicatorsModal.FindFirst | src/components/IndicatorsModal.tsx:64 | it finds the first such entry |
| IndicatorsModal.NewParams | src/components/IndicatorsModal.tsx:47 | empty params text is stored as `{}`, any other as itself |
| IndicatorsModal.Modal.constructor | src/components/IndicatorsModal.tsx:33-36 | the modal starts with an empty list over the stored one |
| IndicatorsModal.Modal.Open | src/components/IndicatorsModal.tsx:38-40 | opening loads the stored list |
| IndicatorsModal.Modal.Add | src/components/IndicatorsModal.tsx:42-54 | a blank name adds nothing; otherwise the indicator is appended, stored and the inputs cleared |
| IndicatorsModal.Modal.Delete | src/components/IndicatorsModal.tsx:56-60 | the indicator is removed and the list stored |
| IndicatorsModal.Modal.Edit | src/components/IndicatorsModal.tsx:62-67 | edit mode starts for the id and loads its name and params |
| IndicatorsModal.Modal.SaveEdit | src/components/IndicatorsModal.tsx:69-79 | outside edit mode nothing changes; otherwise the entry is edited, stored and edit mode left |
| IndicatorsModal.DeleteUndoesAdd | src/components/IndicatorsModal.tsx:42-60 | deleting a freshly added indicator restores the list |
| IndicatorsModal.EditLoadsSaved | src/components/IndicatorsModal.tsx:62-79 | editing an entry loads the name and params it was saved with |
| IndicatorsModal.EditKeepsOthers | src/components/IndicatorsModal.tsx:62-79 | a saved edit leaves the other entries as they were |
| Strings.ToLower | src/hooks/useMarketData.ts:21 | every ASCII capital is lower-cased, and every other character is kept |
| Strings.ToUpper | src/hooks/useMarketData.ts:57 | every ASCII small letter is upper-cased, and every other character is kept |
| Strings.IndexOf | src/hooks/useMarketData.ts:57 | the first position of the character |
| Strings.ReplaceAllAbsent | src/lib/star-transpiler.ts:35 | a global replace of an absent pattern changes nothing |
| Strings.ReplaceAllSkip | src/lib/star-transpiler.ts:35 | a character that cannot start the pattern is copied |
| Strings.ReplaceAllHit | src/lib/star-transpiler.ts:35 | an occurrence of the pattern is replaced and the scan goes on after it |
| Js.Escape | src/lib/star-transpiler.ts:35 | escaped string contents hold no raw newline |
| GenAdapterProps.BinaryFields | src/lib/star-parser/gen-adapter.ts:34 | an adapted binary node reads back its operator and operands |
| GenAdapterProps.UnaryFields | src/lib/star-parser/gen-adapter.ts:35 | an adapted unary node reads back its operator and operand |
| GenAdapterProps.CallFields | src/lib/star-parser/gen-adapter.ts:36 | an adapted call reads back its callee and arguments |
| GenAdapterProps.IndexFields | src/lib/star-parser/gen-adapter.ts:38 | an adapted index reads back its target and index |
| GenAdapterProps.LeafTwice | src/lib/star-parser/gen-adapter.ts:29-33 | an adapted leaf is a fixed point |
| GenAdapterProps.BinaryTwice | src/lib/star-parser/gen-adapter.ts:34 | an adapted binary node of fixed points is a fixed point |
| GenAdapterProps.UnaryTwice | src/lib/star-parser/gen-adapter.ts:35 | the same for unary nodes |
| GenAdapterProps.CallTwice | src/lib/star-parser/gen-adapter.ts:36 | the same for calls |
| GenAdapterProps.ArrayTwice | src/lib/star-parser/gen-adapter.ts:37 | the same for arrays |
| GenAdapterProps.IndexTwice | src/lib/star-parser/gen-adapter.ts:38 | the same for index nodes |
| GenAdapterProps.NullNameFirstPass | src/lib/star-parser/gen-adapter.ts:34 | `name: null` falls back to an undefined `operator` and yields `op: null` |
| GenAdapterProps.NullOpSecondPass | src/lib/star-parser/gen-adapter.ts:34 | `op: null` then falls through to `undefined` |

## Left out

- Storage and persistence: `localStorage` and the `JSON.parse` of stored values in the settings dialog, the indicators modal and the drawing-tools hook are fields (`stored`, `storedSettings`, …) that the methods write; their failure paths (`try`/`catch`) are not modelled.
- Drawings.DrawingStore: the `persist` middleware (drawingStore.ts:108-111) enters only as the `persistedTool` the constructor restores; its write of `activeTool` to storage after each change is not modelled, so a remount is not tied to the last store's tool.
- Parser-diff output: writing `parser-diff.json` with its `generatedAt` time stamp (generate-parser-diff.cjs:99-102) and the console messages (lines 22, 25, 102, 122, 125) are not modelled; `ParserDiff.Run` returns the exit status and `CollectDiffs` the diffs the file would hold.
- Network and streaming: `fetchWithRetries`, `fetchKlines` and the WebSocket setup of `useMarketData.ts` are not modelled; a kline message enters as a candle (`LiveFeed.OnCandle`), the socket events as `OnOpen`/`OnClose`.
- Timers: the reconnect `setTimeout`, the two-second click-count reset of `handleDrawingClick` and `alert` are not modelled; `OnClose` returns the wait it would schedule.
- Non-determinism: `Date.now()` is the parameter `now` or `stamp`, and `Math.random()` is the parameter `roll` (jitter `roll - 200`).
- The chart library: `coordinateToPoint` and the pointer position enter as parameters (`point`, `p`, `converted`); the SVG rendering, DOM measurement, the cloud placement above or below the ruler and the CSS are not modelled.
- React rendering and effects: each handler is a method on the state it updates. The preview drawing of `useAdvancedDrawing.ts`, which aliases the freehand point list, is not modelled.
- Floating point: numbers are exact reals or integers, with no rounding, no overflow and no infinities. `VNaN` is given where the result is NaN whatever the rounding: 0/0, an operand whose `Number(v)` is NaN, a negative base under a fractional exponent. Results that JavaScript makes infinite or rounds (a non-zero number divided by zero, a fractional power of a positive base other than 1, an operand reading `Infinity`) are the unmodelled value `VOpaque`, and no contract states a number for them. `toFixed` formatting, `hexToHsl` and exact `ta.rsi` values are not modelled (only the bounds and the flat and falling cases).
- MarketData.KlineCandle: a row with fewer than six fields gives no candle, where the source builds one with NaN fields.
- ChartDrawingLayer.RulerStatsOf: the bar count of an unresolved ruler is the raw time distance with no text; the exact volume of a resolved ruler is not in this contract but in those of `SpanBetween`, `BarSpan`, `BarSpanSymmetric` and `VolumeSplitFirst`.
- ChartDrawingLayer.ParseInt: hexadecimal `0x` prefixes are not modelled; every call site passes a decimal timeframe.
- GenAdapterProps.AdaptIdempotent: proved for trees whose fallback chains (`op || operator || name`, `callee || name`, …) never end in a falsy value other than `undefined`; `NullNameBreaksIdempotence` shows the source is not idempotent without that condition.
- StarParser.ParseNumber: modelled on the unsigned decimal tokens every caller passes, so the raw-token fallback is never taken.
- StarRuntime.Arith: `+` on a text and a non-text operand (which JavaScript concatenates), a non-zero number divided by zero, a fractional power of a positive base other than 1, and operands reading `Infinity` give `VOpaque`; the contract states NaN and values for the other cases only.
- StarRuntime.Pow: a fractional exponent of a positive base other than 1 gives `VOpaque`, because the power is irrational in general and the model has no floating-point rounding.
- StarValues.NumberOfString: numerals are read exactly, so numerals that overflow to infinity or lose digits to rounding in JavaScript are given their exact value; `Infinity`, `+Infinity` and `-Infinity` are given no value, and values holding them are untracked (`VOpaque` in arithmetic).
- Strings.ToLower: lower-cases ASCII capitals only; JavaScript's `toLowerCase` also maps other Unicode capitals (`É` to `é`). The call sites lower-case timeframes and symbols, which are ASCII.
- Strings.ToUpper: upper-cases ASCII small letters only; JavaScript's `toUpperCase` also maps other Unicode letters and can lengthen the text (`ß` becomes `SS`). The call sites upper-case trading symbols, which are ASCII.
- Prototype members: a lookup by a key the source does not control, such as `timeframeSeconds[timeframe]` (src/utils/drawingPrimitives.ts:199), `map[key]` (src/hooks/useMarketData.ts:23) and `profiles[name]` (artifacts_latest/vitest-results/src/components/ChartSettingsDialog.tsx:211), finds only own entries in the model. In JavaScript a key such as `constructor` or `toString` finds an inherited member of `Object.prototype` instead of falling back to the default.
- StarTranspiler.Assign: keys keep insertion order. JavaScript lists integer-like keys first, in numeric order; the named-argument keys the parser produces are identifiers, which are never integer-like.
- Drawings.Patched: a patch field that is present but `undefined` is treated like a missing one, whereas the spread would write `undefined` into the drawing.
- StarRunner.MakeDefaultEnv: the `plots` array (runner.ts:37), the `_inputs` record (runner.ts:28-32) and `strategy._internal` (runner.ts:86) are fields of the environment, not variables. A script that reads `plots`, `_inputs` or `strategy._internal` gets the name's own text, as for an unbound name, instead of the live array or record; one that rebinds them does not reach them. Modelling them as variables would make every builtin write through an alias into the variable map.
- StarRuntime.OpCount: a counter holding a truthy text, list or object is read as 0, and one reading `Infinity` as 0 too. In JavaScript `+= 1` concatenates onto such a value (`"abc"` becomes `"abc1"`), whose `Number` is NaN, so that counter never reaches the limit.
- StarRuntime.Tick: the counter always becomes a number one above `OpCount`; in JavaScript a text, list or object counter turns into text by concatenation (see `StarRuntime.OpCount`).
- StarRuntime.OpLimit: a limit reading `Infinity` or `-Infinity` is given no number, so it never stops evaluation here; JavaScript also never stops at `Infinity`, but stops at once at `-Infinity`.
- StarTranspiler.Render: numbers are exact decimals printed in the notation of `Number::toString` (plain from 1e-6 up to 1e21, exponent form beyond). JavaScript first rounds the numeral to the nearest double and prints the shortest digits that round-trip, so a numeral with more than about 17 significant digits prints rounded there (`0.10000000000000000001` prints `0.1`) and an overflowing one prints `Infinity`; here it prints all its digits.
- Js.Stringify: numbers print as `StarTranspiler.Render` prints them, with the same rounding left out; `JSON.stringify` writes `null` for a non-finite number, which the exact decimals of a parsed tree never are.
- Executing the emitted JavaScript module (`new Function`) is not modelled; `ModuleEmbedsJson` states what its template literal evaluates to.
- Unreachable ruler paths of `src/hooks/useAdvancedDrawing.ts`: the `ruler` case of the second-click switch (line 82) and the ruler preview measurements (line 154) cannot run, because mousedown returns for the ruler at line 37 and mousemove at line 135. The model keeps the switch case as written, and the ruler is handled by `ChartDrawingLayer.Ruler`.
- StarBuiltins.Sma: an infinite length (`Infinity` as text, or an opaque value) or an infinite value in the window gives `VOpaque`, where JavaScript averages the whole array or reaches an infinity or NaN.
- StarBuiltins.SmaLength: an infinite length lands on 1 here, where `Math.floor(Infinity)` keeps the whole array; `Sma` gives `VOpaque` before using it then.
- StarBuiltins.RsiLength: an infinite length lands on 14 here, where JavaScript uses the whole series; `Rsi` gives `VOpaque` before using it then.
- StarBuiltins.Rsi: an infinite length or an infinite value in the window gives `VOpaque` (JavaScript may give NaN there) for any series of two or more values.
- StarBuiltins.Highest: an infinite length or an infinite value in the window, and an empty window (`Math.max()` is `-Infinity`), give `VOpaque`.
- StarBuiltins.Lowest: the same `VOpaque` cases as `Highest` (`Math.min()` is `Infinity`).
- StarBuiltins.Avg: arguments that are not all numbers (which `+` may concatenate as text) give `VOpaque`.
- StarBuiltins.Rgb: an argument without a modelled property-key text (an object, a list, a fraction) gives `VOpaque`; whole numbers print as `StarValues.KeyOf` prints them.
- StarValues.KeyOf: fractions, lists, objects and functions have no text (`None`); whole numbers print exactly, without JavaScript's rounding to the nearest double (`1000000000000000000001` prints all its digits in exponent form where JavaScript prints `1e+21`).
- StarRuntime.IndexValue: element reads are promised for positions below 1e21 only, because a larger position is keyed in exponent notation and names no element; JavaScript arrays never reach that length (at most 2^32 − 1 elements), but the model's lists are not bounded.
- StarTransform.TransformProgram: the `version` field is not carried; parsed programs never have one, so `ast.version ?? null` is always `null`, which is what the JSON of a program writes.
- Line splitting on `/\r?\n/` is modelled as splitting on `\n`: every line is trimmed at once, which removes a trailing `\r`.
- The generated parser (`parser.cjs`) is not part of this model: the parser-diff script takes both parsers as parameters.

## Findings

| source | as written | input that shows it | evidently intended | confidence | as-written member | corrected member |
|---|---|---|---|---|---|---|
| src/hooks/useMarketData.ts:112 | `setupWebSocket` zeroes the reconnect counter, and every reconnect goes through it (line 169), so each close counts attempt 1 | any outage in which every new socket closes before it opens | the back-off escalates with each failed reconnect, the counter being zeroed only when a socket opens (line 116) | not executed | MarketData.BackoffNeverEscalates | MarketData.LongOutageWaits |
| src/lib/star-transpiler.ts:35-36 | the AST JSON is embedded in a template literal, escaping only `\` and `` ` ``; a `${` in a string is read as a substitution | the one-line script `indicator ${x}` | the template literal evaluates to the JSON exactly, so `$` must be escaped as well | not executed | StarTranspilerProps.DollarBraceIndicatorBreaksModule | StarTranspilerProps.ModuleEmbedsJson |
