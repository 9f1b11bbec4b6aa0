# A verified model of a Scheme interpreter and a smart-pointer suite

This project models two independent pieces of one C++ repository and proves properties of the models. Dafny checks every proof.

**The Scheme interpreter.** The project models the whole pipeline from text to printed value:

- **Tokenizer.** A character state machine with one token of lookahead (`Lexer`). The `Tokenizer` class holds the input, the read position and the lookahead token. Its methods are proved to do what the pure function `Lex` says one call of `Next` does.
- **Reader.** A recursive-descent reader that builds trees (`Reader`), including the dotted-tail rule of `BuildList`.
- **Basic variant.** Its values never change after they are built, so they are immutable trees. `BasicObject` prints them. `BasicScheme` evaluates them, and its methods follow the C++ functors loop for loop. `BasicLaws` states the meaning of each builtin against independent definitions, with the integer functors in `Arithmetic`.
- **Advanced variant.**
  - Objects live in a heap of addresses, so a cell changed by `set-car!` is changed for every name bound to it (`AdvancedObject`).
  - The frames (`Scope`) and the globals `curr` and `lambdas` are explicit state.
  - `AdvancedScheme` gives the meaning of every functor, of `Execute` and of `Run` as functions of that state.
  - `AdvancedRuntime` is the evaluator as a class whose fields are that state. Each of its methods is proved to leave the state and answer exactly what the functions say.
  - `AdvancedLaws` proves what whole expressions do. Examples: the walk of `CellToVector` gives up exactly when the C++ loop would never end; lookup sees only the current frame; `define` and `set!` rebind there; `set-car!` is visible through every alias; both interpreters print the same text when their values agree.

Failures are the three exception kinds (`SyntaxError`, `NameError`, `RuntimeError`). Where the C++ code has no defined result, the outcome is a "stuck" value instead:

- `UndefinedBehaviour`: a null dereference, an unchecked cast of the wrong object, or an empty lambda body;
- `Diverges`: a loop that never ends, such as walking a cyclic list;
- `OutOfFuel`: the model's own bound on evaluation depth was exhausted.

**The smart pointers.** These are modelled as classes with the source's fields:

- **Control blocks.** `BlockObject` and `BlockPtr` (`SharedOwnership.Block`) count owners and observers. `SharedPtr`, `WeakPtr` and `EnableSharedFromThis` work through them.
- **Intrusive counting.** `SimpleCounter`, `RefCounted` and `IntrusivePtr` (`Intrusive`) count references inside the object.
- **Sole ownership.** `UniquePtr`, in its scalar and array forms, with the `Slug` deleters (`Unique`).

How the proofs are set up:

- Each counted object keeps a ghost register of the pointers that hold it, one ticket per pointer. Every method is proved to keep the count equal to the number of registrations.
- The object is destroyed exactly once, when the last owner lets go. A control block is freed exactly when both counts are zero.
- Copy-and-swap assignments are proved through small lemmas about how a temporary's registration composes with a swap and a destructor.
- A `UniquePtr` keeps a ghost log of the calls it makes to its deleter. The lemmas show that every address it was given is still held, handed back by `Release`, or given to the deleter exactly once.

## Model

| member | source | states |
|---|---|---|
| Lexer.SameTokenIsEquality | scheme/parser/tokenizer.cpp:20-37 | the tokens' `operator==` (name for symbols, value for constants, always true for quote and dot) compares equal exactly when the two tokens are the same token |
| Lexer.NatToString | scheme/basic/object.cpp:11-13 | the decimal text of a number is a non-empty run of digits |
| Lexer.DecimalValueOfNatToString | scheme/basic/object.cpp:11-13 | reading back the digits that printing wrote gives the number |
| Lexer.StoiOfIntToString | scheme/parser/tokenizer.cpp:92-101 | the text a number prints as is a signed digit string the tokenizer accepts, and `stoi` of it is the number again |
| Lexer.SkipBlanks | scheme/parser/tokenizer.cpp:52-54 | the blank-skipping loop stops at the first character that is not a space or a newline, having skipped only blanks |
| Lexer.DigitsEnd | scheme/parser/tokenizer.cpp:74-77 | a digit run ends at the first non-digit, and everything before it is a digit |
| Lexer.SymbolEnd | scheme/parser/tokenizer.cpp:107-110 | a symbol run ends at the first character outside the continuation set |
| Lexer.Lex | scheme/parser/tokenizer.cpp:51-119 | one `Next`: the position never moves back; the only failure is a syntax error; a new token consumes at least one character; no token means the input is exhausted; the token each first character gives is stated case by case by the `Lex...` lemmas below |
| Lexer.StepProgress | scheme/parser/tokenizer.cpp:51-119 | a successful `Next` on a held lookahead leaves a well-formed state with fewer characters left or the lookahead cleared, so repeated reading ends |
| Lexer.Tokenizer.Open | scheme/parser/tokenizer.cpp:39 | member initialisation: position 0, no lookahead |
| Lexer.Tokenizer.SkipSpaces | scheme/parser/tokenizer.cpp:52-54 | the loop leaves the stream at `SkipBlanks` of where it was, lookahead untouched |
| Lexer.Tokenizer.TakeDigits | scheme/parser/tokenizer.cpp:74-77 | the digit loop consumes exactly the digit run and appends it to the text collected so far |
| Lexer.Tokenizer.TakeSymbolChars | scheme/parser/tokenizer.cpp:107-110 | the symbol loop consumes exactly the run of continuation characters and returns it |
| Lexer.Tokenizer.Next | scheme/parser/tokenizer.cpp:51-119 | the new position, lookahead and thrown error are those `Lex` gives, so each token it reads is the one `LexPunctuation`, `LexNumber`, `LexSign` and `LexSymbol` state; on a throw the old lookahead stays |
| Lexer.NewTokenizer | scheme/parser/tokenizer.cpp:39-41 | the constructor reads the first token at once: its state is one `Next` from the start of the input |
| Lexer.LexSkipsBlank | scheme/parser/tokenizer.cpp:52-54 | a leading space or newline is skipped: `Next` reads from after it exactly what it reads from before it |
| Lexer.LexAtEnd | scheme/parser/tokenizer.cpp:55-58 | no token is read exactly when only blanks are left, and then the whole input is consumed |
| Lexer.LexPunctuation | scheme/parser/tokenizer.cpp:60-71 | `(`, `)`, `'` and `.` each give their own token and consume only that character |
| Lexer.StoiOfDigits | scheme/parser/tokenizer.cpp:78 | `stoi` of a run of digits is its decimal value |
| Lexer.StoiOfSigned | scheme/parser/tokenizer.cpp:88 | `stoi` of a sign followed by digits is the decimal value of the digits, negated for `-` (also line 101) |
| Lexer.LexNumber | scheme/parser/tokenizer.cpp:72-78 | a digit consumes the whole run of digits and gives a constant holding its decimal value |
| Lexer.LexSign | scheme/parser/tokenizer.cpp:79-104 | `+` or `-` followed by a digit gives the signed constant of the digit run that follows; followed by anything else, or by nothing, it gives the symbol of that one character |
| Lexer.LexSymbol | scheme/parser/tokenizer.cpp:105-115 | a symbol start consumes the longest run of symbol characters; followed by the end or a blank it gives that symbol, followed by anything else a syntax error |
| Lexer.LexFails | scheme/parser/tokenizer.cpp:51-119 | `Next` throws exactly when the next character starts no token (consuming nothing) or a symbol run is followed by a non-blank: both directions |
| Lexer.LexTokenText | scheme/parser/tokenizer.cpp:51-119 | the text of a token followed by a blank is read as that token, consuming exactly the text |
| Lexer.TokenizeOfUnlex | scheme/parser/tokenizer.cpp:51-119 | round trip: tokenizing the printed form of any list of printable tokens gives that list back |
| Reader.DotIndex | scheme/parser/parser.cpp:53-54 | the first dot symbol at or after a position, or the end if there is none |
| Reader.BuildListShape | scheme/parser/parser.cpp:48-63 | `BuildList` of a whole list: no dot gives the nil-terminated chain; a first dot at index `k >= 1` followed by exactly one element gives the chain of the first `k` elements ending in that element; any other dot is a syntax error |
| Reader.EmptyListIsNil | scheme/parser/parser.cpp:50-51 | `()` reads as the null object |
| Reader.ElementsOfChain | scheme/parser/parser.cpp:61 | walking the cdrs of a built chain gives back the elements in order |
| Reader.ProperListRoundTrip | scheme/parser/parser.cpp:48-63 | a list without dots builds the chain of exactly its elements |
| Reader.ReadSpec | scheme/parser/parser.cpp:23-46 | `Read` either fails with a syntax error or leaves a well-formed tokenizer with strictly less input left; what it answers for each token is `ReadCases`, and `ShowReadsAs` proves it the inverse of printing |
| Reader.ReadItems | scheme/parser/parser.cpp:65-87 | the element loop of `ReadList` either fails with a syntax error or leaves a well-formed tokenizer with strictly less input left; its end cases are `ReadItemsCases`, and `ReadTail` states what it reads after the printed elements of a list |
| Reader.BuildListErrors | scheme/parser/parser.cpp:55-59 | the only failure `BuildList` has is a syntax error |
| Reader.Read | scheme/parser/parser.cpp:23-46 | the method over the tokenizer object leaves the state and returns the datum or error that `ReadSpec` gives, so `ReadCases` and `ShowReadsAs` hold of it |
| Reader.ReadList | scheme/parser/parser.cpp:65-87 | the method leaves the state and returns the datum or error that `ReadItems` gives when started with no elements, so `ReadItemsCases` holds of it |
| Reader.ReadCases | scheme/parser/parser.cpp:23-46 | an exhausted tokenizer is a syntax error; otherwise, after `Next`, a constant reads as a number, a symbol as that symbol, a dot as the symbol `.`, a closing bracket or a quote as a syntax error, an opening bracket as the list `ReadList` reads; a failing `Next` is a syntax error |
| Reader.ReadItemsCases | scheme/parser/parser.cpp:65-87 | input that ends inside a list is a syntax error; at the closing bracket the bracket is consumed and the list is `BuildList` of the elements read |
| Reader.ReadShown | scheme/parser/parser.cpp:23-87 | a tokenizer whose tokens begin with the printed tokens of a tree reads exactly that tree and stops right after them |
| Reader.ReadTail | scheme/parser/parser.cpp:65-87 | inside a list, after some elements, the printed tokens of the rest of the list read as the chain of all of them |
| Reader.ShowReadsAs | scheme/parser/parser.cpp:23-87 | round trip: the printed text of a tree whose symbols are names the tokenizer accepts reads back as that tree, with the input exhausted |
| BasicObject.ToStrings | scheme/basic/object.cpp:48-59 | one printed text per element |
| BasicObject.ToStringProperList | scheme/basic/object.cpp:48-59 | a proper list with no null element prints as its elements separated by single spaces, without brackets |
| BasicObject.ToStringDottedList | scheme/basic/object.cpp:54-55 | a list ending in a number or symbol prints its elements, then ` . ` and the tail |
| BasicObject.NilHeadHidesRest | scheme/basic/object.cpp:49-51 | a list whose first element is null prints `()` whatever follows |
| BasicObject.NestedListPrintsFlat | scheme/basic/object.cpp:52-58 | an inner list loses its brackets: `((a b) c)` prints the same text as `(a b c)` |
| BasicObject.ToStringsAppend | scheme/basic/object.cpp:48-59 | printing the elements of a concatenation prints each part's elements in turn |
| BasicObject.JoinAppend | scheme/basic/object.cpp:57 | joining two non-empty lists of texts puts one space between them |
| Arithmetic.AdjacentHold | scheme/basic/scheme.cpp:105-111 | the loop's flag is true exactly when the relation holds between every element and the next |
| Arithmetic.TruncDiv | scheme/basic/scheme.cpp:163-167 | C++ `/` truncates toward zero: the remainder has the dividend's sign and is smaller in magnitude than the divisor |
| Arithmetic.Fold | scheme/basic/scheme.cpp:197-200 | the accumulating loop computes the left fold of the operator from the start index, and is stuck on a division by zero |
| Arithmetic.FoldSum | scheme/basic/scheme.cpp:119-123 | folding `Sum` adds the sum of the remaining numbers |
| Arithmetic.FoldProduct | scheme/basic/scheme.cpp:125-129 | folding `Mul` multiplies by the product of the remaining numbers |
| Arithmetic.PlusIsSum | scheme/basic/scheme.cpp:144-153 | `+` starts from 0 and gives the sum of its operands |
| Arithmetic.TimesIsProduct | scheme/basic/scheme.cpp:144-153 | `*` starts from 1 and gives the product of its operands |
| Arithmetic.MinusSubtractsRest | scheme/basic/scheme.cpp:197-200 | `-` gives the first operand minus the sum of the others |
| Arithmetic.FoldMinus | scheme/basic/scheme.cpp:157-161 | folding `Minus` subtracts the sum of the remaining numbers |
| Arithmetic.FoldMax | scheme/basic/scheme.cpp:169-173 | folding `Max` gives a value that is the start or one of the numbers, and no smaller than any of them |
| Arithmetic.FoldMin | scheme/basic/scheme.cpp:175-179 | folding `Min` gives a value that is the start or one of the numbers, and no greater than any of them |
| Arithmetic.MaxIsGreatest | scheme/basic/scheme.cpp:197-200 | `max` of a non-empty list is one of its elements and no smaller than any element |
| Arithmetic.MinIsLeast | scheme/basic/scheme.cpp:197-200 | `min` of a non-empty list is one of its elements and no greater than any element |
| Arithmetic.FoldDivideDefined | scheme/basic/scheme.cpp:163-167 | `/` has a result exactly when no later operand is zero; otherwise the outcome is undefined behaviour |
| Arithmetic.AbsInt | scheme/basic/scheme.cpp:220 | `std::abs`: the number or its negation, never negative |
| BasicScheme.IsListOfT | scheme/basic/scheme.cpp:34-43 | the loop answers true exactly when every element has the type |
| BasicScheme.Flatten | scheme/basic/scheme.cpp:14-32 | every element is a part of the list, and the first is the head's car |
| BasicScheme.CellToVector | scheme/basic/scheme.cpp:14-32 | the loop collects exactly `Flatten` of the list |
| BasicScheme.WalkToLastCell | scheme/basic/scheme.cpp:327-329 | the walk stops at the pair whose cdr is the chain's final, non-pair cdr |
| BasicScheme.Values | scheme/basic/scheme.cpp:151 | the numbers in a list of number objects, element by element |
| BasicScheme.Execute | scheme/basic/scheme.cpp:470-493 | the method's result is `Eval` of the expression |
| BasicScheme.Call | scheme/basic/scheme.cpp:492 | calling a functor computes `Apply` of it on the operand chain |
| BasicScheme.EvaluateChecked | scheme/basic/scheme.cpp:135-140 | the evaluate-every-operand loop, including its null check, computes `EvalChecked` |
| BasicScheme.IsNumber | scheme/basic/scheme.cpp:49-60 | `number?` computes `IsNumberSpec` |
| BasicScheme.Compare | scheme/basic/scheme.cpp:92-117 | the comparison functor computes `CompareSpec` |
| BasicScheme.DefFirst | scheme/basic/scheme.cpp:131-155 | `+` and `*` compute `DefFirstSpec` |
| BasicScheme.NotDefFirst | scheme/basic/scheme.cpp:181-203 | `-`, `/`, `max` and `min` compute `NotDefFirstSpec` |
| BasicScheme.Abs | scheme/basic/scheme.cpp:205-222 | `abs` computes `AbsSpec` |
| BasicScheme.AndOr | scheme/basic/scheme.cpp:258-288 | `and` and `or` compute `ShortCircuit` over the flattened operands |
| BasicScheme.IsPair | scheme/basic/scheme.cpp:290-302 | `pair?` computes `PairSpec` |
| BasicScheme.IsNull | scheme/basic/scheme.cpp:304-315 | `null?` computes `NullSpec` |
| BasicScheme.CheckList | scheme/basic/scheme.cpp:317-335 | `list?` computes `CheckListSpec` |
| BasicScheme.Car | scheme/basic/scheme.cpp:347-359 | `car` computes `CarSpec` |
| BasicScheme.Cdr | scheme/basic/scheme.cpp:361-373 | `cdr` computes `CdrSpec` |
| BasicScheme.ListRef | scheme/basic/scheme.cpp:381-397 | `list-ref` computes `ListRefSpec` |
| BasicScheme.ListTail | scheme/basic/scheme.cpp:399-419 | `list-tail` computes `ListTailSpec` |
| BasicScheme.Run | scheme/basic/scheme.cpp:450-468 | `Interpreter::Run` computes `RunSpec`: tokenize, read one expression, reject leftovers and the empty expression, evaluate, print |
| BasicLaws.EvalForm | scheme/basic/scheme.cpp:478-493 | a form whose head names a builtin applies that builtin to its unevaluated operand chain |
| BasicLaws.ChainOne | scheme/parser/parser.cpp:61 | a one-element list is one pair ending in null |
| BasicLaws.ChainTwo | scheme/parser/parser.cpp:61 | a two-element list is two pairs ending in null |
| BasicLaws.Nums | scheme/basic/object.cpp:4-5 | number objects, one per integer, in order |
| BasicLaws.FlattenChain | scheme/basic/scheme.cpp:14-32 | `CellToVector` of a null-terminated chain gives exactly its elements |
| BasicLaws.FlattenDotted | scheme/basic/scheme.cpp:28-30 | `CellToVector` of a chain ending in an atom gives its elements followed by the atom |
| BasicLaws.DottedTailLooksLikeElement | scheme/basic/scheme.cpp:14-32 | a dotted tail flattens the same as one more element: `(a . b)` and `(a b)` look alike to every builtin |
| BasicLaws.EvalCheckedAtoms | scheme/basic/scheme.cpp:135-140 | operands that are all numbers or symbols evaluate to themselves, in order |
| BasicLaws.NumbersEvaluateToThemselves | scheme/basic/scheme.cpp:470-472 | a list of numbers evaluates element by element to the same numbers |
| BasicLaws.EvalPlus | scheme/basic/scheme.cpp:428 | `(+ n ...)` is the sum of the numbers, 0 for none |
| BasicLaws.EvalTimes | scheme/basic/scheme.cpp:429 | `(* n ...)` is the product of the numbers, 1 for none |
| BasicLaws.EvalMinus | scheme/basic/scheme.cpp:430 | `(- n m ...)` is the first minus the sum of the rest; with no operand it is a runtime error |
| BasicLaws.EvalMax | scheme/basic/scheme.cpp:432 | `(max n ...)` is an operand no smaller than any operand; with no operand it is a runtime error |
| BasicLaws.EvalMin | scheme/basic/scheme.cpp:433 | `(min n ...)` is an operand no greater than any operand; with no operand it is a runtime error |
| BasicLaws.EvalCompare | scheme/basic/scheme.cpp:423-427 | a comparison of numbers is `#t` exactly when every neighbouring pair is in the relation |
| BasicLaws.ArithmeticRejectsSymbol | scheme/basic/scheme.cpp:141-143 | an arithmetic or comparison builtin given a symbol operand raises a runtime error |
| BasicLaws.NumericRejects | scheme/basic/scheme.cpp:102-103 | a comparison, a fold or `abs` whose operand values are not all numbers raises a runtime error (the same check at lines 141-142, 191-192 and 214-215) |
| BasicLaws.EvalQuote | scheme/basic/scheme.cpp:224-232 | `(quote x)` is `x`, unevaluated |
| BasicLaws.EvalCons | scheme/basic/scheme.cpp:337-345 | `(cons a b)` is the pair of the two unevaluated operands |
| BasicLaws.CarOfCons | scheme/basic/scheme.cpp:347-359 | `car` of a `cons` gives back the first operand |
| BasicLaws.CdrOfCons | scheme/basic/scheme.cpp:361-373 | `cdr` of a `cons` gives back the second operand |
| BasicLaws.EvalList | scheme/basic/scheme.cpp:375-379 | `(list x ...)` is the chain of the unevaluated operands |
| BasicLaws.EvalListRef | scheme/basic/scheme.cpp:381-397 | `list-ref` gives the element at the index; a negative or too large index is a runtime error |
| BasicLaws.EvalListTail | scheme/basic/scheme.cpp:399-419 | `list-tail` gives the chain of the elements from the index on; an index past the end is a runtime error |
| BasicLaws.EvalNot | scheme/basic/scheme.cpp:245-256 | `not` is `#t` exactly for the literal `#f`; other than one operand is a runtime error |
| BasicLaws.EvalIsBoolean | scheme/basic/scheme.cpp:234-243 | `boolean?` is `#t` exactly for one operand that is `#t` or `#f` |
| BasicLaws.IsNumberOfSum | scheme/basic/scheme.cpp:51-55 | `number?` tests the operand as written, so `(number? (+ 1 2))` is `#f` |
| BasicLaws.EvalIsNumberOfAtom | scheme/basic/scheme.cpp:49-60 | `number?` of a number or symbol is `#t` exactly for a number |
| BasicLaws.AndOfAtoms | scheme/basic/scheme.cpp:261-270 | the `and` loop over self-evaluating operands stops at the first `#f`, else gives `#t` for none or the last operand |
| BasicLaws.OrOfAtoms | scheme/basic/scheme.cpp:277-286 | the `or` loop over self-evaluating operands stops at the first `#t`, else gives `#f` for none or the last operand |
| BasicLaws.EvalAnd | scheme/basic/scheme.cpp:258-272 | `(and x ...)` is `#f` if some operand is `#f`, `#t` for none, otherwise the last operand |
| BasicLaws.EvalOr | scheme/basic/scheme.cpp:274-288 | `(or x ...)` is `#t` if some operand is `#t`, `#f` for none, otherwise the last operand |
| BasicLaws.EvalNullOfQuoted | scheme/basic/scheme.cpp:304-315 | `null?` of a quoted value is `#t` exactly for `()` |
| BasicLaws.LastCdrOfChain | scheme/basic/scheme.cpp:327-329 | the walk over a chain reaches the chain's tail |
| BasicLaws.EvalIsListOfQuoted | scheme/basic/scheme.cpp:317-335 | `list?` of a quoted non-empty chain is `#t` exactly when it ends in `()` |
| BasicLaws.PairOfOperand | scheme/basic/scheme.cpp:290-302 | `pair?` looks at how many elements the operand's value flattens to |
| BasicLaws.EvalIsPairOfQuotedList | scheme/basic/scheme.cpp:296-298 | a two-element proper list counts as a pair, like a dotted pair |
| BasicLaws.EvalIsPairOfQuoted | scheme/basic/scheme.cpp:290-302 | `pair?` of a quoted value is `#t` exactly when it flattens to two elements |
| BasicLaws.EvalUnknownHead | scheme/basic/scheme.cpp:479-488 | a head that is not a symbol naming a builtin is a runtime error |
| AdvancedObject.IsNullIsFalse | scheme/advanced/object.h:142-148 | `Is<T>` of the null pointer is false for every type |
| AdvancedObject.AsCell | scheme/advanced/object.h:137-140 | the unchecked cast yields the cell exactly when the pointer is a cell; anything else is undefined behaviour |
| AdvancedObject.NewLambda | scheme/advanced/object.cpp:86-89 | the default lambda gets a fresh empty frame whose parent is `curr`, no body and no parameters, at a fresh address; nothing else changes |
| AdvancedObject.LambdaOf | scheme/advanced/object.cpp:91-94 | the body-and-names constructor keeps the body and the names and leaves the frame null |
| AdvancedObject.Clone | scheme/advanced/object.cpp:19-21 | a copy at a fresh address, with the old heap untouched: numbers, symbols and cells copied shallowly (`Clone` at lines 39-41 and 65-67), a lambda replaced by a new empty lambda with its own frame (lines 118-120) |
| AdvancedObject.SetFirst | scheme/advanced/object.cpp:76-78 | only that cell's car changes |
| AdvancedObject.SetSecond | scheme/advanced/object.cpp:80-82 | only that cell's cdr changes |
| AdvancedObject.RepresentsExtends | scheme/advanced/object.cpp:44-46 | allocating more objects never disturbs an object graph already in the heap |
| AdvancedObject.Load | scheme/parser/parser.cpp:19-21 | the reader's allocations grow the heap by one object per node, keep the old heap, and the new pointer represents the tree |
| AdvancedObject.ToStringOfRepresented | scheme/advanced/object.cpp:48-59 | a tree in the heap prints exactly as the basic variant prints the tree |
| AdvancedObject.LoadedToString | scheme/advanced/object.cpp:48-59 | a freshly loaded tree prints as itself within the heap's own depth bound |
| AdvancedScheme.Walk | scheme/advanced/scheme.cpp:19-32 | the walk along the cdrs either answers the elements gathered so far followed by at least one more, or is stuck on a call through null or on an endless loop; nothing else can happen |
| AdvancedScheme.CellToVector | scheme/advanced/scheme.cpp:14-33 | null flattens to the empty list, a cell to a non-empty list; the only failures are undefined behaviour (a non-cell cast to a cell) and a cycle that loops forever |
| AdvancedScheme.NumberValues | scheme/advanced/scheme.cpp:123-133 | the values the functors read off a list of numbers, one per element, in order |
| AdvancedScheme.Bind | scheme/advanced/scheme.cpp:452 | `curr->vars_[name] = v` maps the name to the value in the current frame, and leaves the heap, `curr`, the lambda table and every other frame unchanged |
| AdvancedScheme.LastCell | scheme/advanced/scheme.cpp:332-334 | when the walk of `list?` ends, it ends at a cell whose cdr is not a cell |
| AdvancedScheme.BuildListAt | scheme/parser/parser.cpp:48-63 | building the result of `list-tail` only appends to the heap: old objects, frames, `curr` and the lambda table stay as they were; what it builds is `AdvancedLaws.BuildListAtRepresents` |
| AdvancedScheme.LambdaParts | scheme/advanced/scheme.cpp:544-564 | whatever `MakeLambda` builds is a lambda without a frame |
| AdvancedScheme.Reset | scheme/advanced/scheme.h:9-12 | constructing an `Interpreter` empties the lambda table and the current frame's bindings, keeps the current frame's parent, and changes no other frame and no object |
| AdvancedRuntime.Runtime.constructor | scheme/advanced/object.h:30-34 | the globals start as the empty heap, one empty current frame and an empty lambda table |
| AdvancedRuntime.Runtime.Clear | scheme/advanced/scheme.h:9-12 | the globals become `Reset` of what they were: empty lambda table, current frame's bindings cleared, nothing else changed |
| AdvancedRuntime.Runtime.MakeShared | scheme/advanced/object.cpp:19-21 | `make_shared` puts the object at a fresh address at the end of the heap and changes nothing else |
| AdvancedRuntime.Runtime.Clone | scheme/advanced/object.cpp:118-120 | the globals and the pointer become those of `AdvancedObject.Clone`: a shallow copy of a number, symbol or cell (lines 19-21, 39-41, 65-67), and for a lambda a new empty lambda with a new frame whose parent is `curr` |
| AdvancedRuntime.Runtime.Bind | scheme/advanced/scheme.cpp:452 | the globals become `AdvancedScheme.Bind`: the current frame maps the name to the value, and nothing else changes |
| AdvancedRuntime.Runtime.Load | scheme/parser/parser.cpp:23-87 | the objects the reader builds for a tree are appended as `AdvancedObject.Load` lays them out; frames, `curr` and the lambda table are untouched |
| AdvancedRuntime.Runtime.CellToVector | scheme/advanced/scheme.cpp:14-33 | the loop answers exactly `AdvancedScheme.CellToVector`: the cars along the cdr chain and a non-null final cdr, stuck on a non-cell or a cycle; the state is not changed |
| AdvancedRuntime.Runtime.IsListOfT | scheme/advanced/scheme.cpp:35-44 | the loop answers true exactly when every element is a non-null object of the type |
| AdvancedRuntime.Runtime.Names | scheme/advanced/scheme.cpp:558-560 | the loop answers the `ToString` of every parameter in order, or the first failure |
| AdvancedRuntime.Runtime.BuildList | scheme/parser/parser.cpp:48-63 | the recursion allocates the cells of `BuildListAt` and answers its result, appending to the heap only |
| AdvancedRuntime.Runtime.Execute | scheme/advanced/scheme.cpp:636-686 | `Execute` leaves the state and gives the result `Eval` describes: numbers and `#t`/`#f` clone, other symbols look up the current frame or raise a name error, cells apply, lambdas run, null is undefined behaviour |
| AdvancedRuntime.Runtime.ExecuteCell | scheme/advanced/scheme.cpp:651-686 | `Cell::Execute` leaves the state and result of `AdvancedScheme.ExecuteCell`: null head a runtime error, an inline `(lambda ...)` head built and run, an unknown name or improper operands a runtime error, `define` answering its head |
| AdvancedRuntime.Runtime.Call | scheme/advanced/scheme.cpp:578-614 | calling a functor of `k_functions` leaves the state and result `Apply` gives for that functor |
| AdvancedRuntime.Runtime.EvaluateAll | scheme/advanced/scheme.cpp:53-58 | the in-place evaluation loop replaces every operand by its value in order, raising a runtime error at the first null operand, as `EvalChecked` describes |
| AdvancedRuntime.Runtime.Operands | scheme/advanced/scheme.cpp:52-58 | flattening the operand chain and evaluating each operand gives the state and values of `AdvancedScheme.Operands` |
| AdvancedRuntime.Runtime.Answer | scheme/advanced/scheme.cpp:60 | `make_shared` of a result object: the new object at a fresh address is the answer |
| AdvancedRuntime.Runtime.IsType | scheme/advanced/scheme.cpp:50-64 | `number?` and `symbol?` (lines 424-438) answer `TypeTestSpec`: a new `#t` exactly for one operand whose value has the type, else a new `#f`, after evaluating the operands; `AdvancedLaws.EvalTypeTestOfQuoted` and `EvalIsNumberOfSum` state what that is for whole expressions |
| AdvancedRuntime.Runtime.Compare | scheme/advanced/scheme.cpp:96-121 | the comparison functors answer `CompareSpec`: operands evaluated, any non-number a runtime error, a new `#t` exactly when every adjacent pair is in the relation |
| AdvancedRuntime.Runtime.DefFirst | scheme/advanced/scheme.cpp:135-160 | `+` and `*` answer `DefFirstSpec`: a new number folding the values from 0 or 1, a non-number a runtime error |
| AdvancedRuntime.Runtime.NotDefFirst | scheme/advanced/scheme.cpp:186-208 | `-`, `/`, `max` and `min` answer `NotDefFirstSpec`: no operands a runtime error, else a new number folding from the first value |
| AdvancedRuntime.Runtime.Abs | scheme/advanced/scheme.cpp:210-227 | `abs` answers `AbsSpec`: exactly one number, whose magnitude is the new number |
| AdvancedRuntime.Runtime.Quote | scheme/advanced/scheme.cpp:229-237 | `quote` changes nothing and answers the unevaluated single operand, as `QuoteSpec` describes |
| AdvancedRuntime.Runtime.IsBoolean | scheme/advanced/scheme.cpp:239-248 | `boolean?` answers `IsBooleanSpec` of the unevaluated operand, which `AdvancedLaws.EvalIsBooleanOf` states for any written operands |
| AdvancedRuntime.Runtime.Not | scheme/advanced/scheme.cpp:250-261 | `not` answers `NotSpec`: `#t` exactly for an unevaluated `#f` operand, as `AdvancedLaws.EvalNotOf` states for any written operands |
| AdvancedRuntime.Runtime.AndOr | scheme/advanced/scheme.cpp:263-293 | the loops of `and` and `or` give the state and result of `ShortCircuitSpec`: evaluation in order, stopping at the first `#f` (`#t`) |
| AdvancedRuntime.Runtime.Pair | scheme/advanced/scheme.cpp:295-307 | `pair?` answers `PairSpec`: true exactly when the operand's value flattens to two elements, as `AdvancedLaws.EvalIsPairOfQuoted` and `EvalListPredicateArity` state |
| AdvancedRuntime.Runtime.IsNull | scheme/advanced/scheme.cpp:309-320 | `null?` answers `NullSpec`: true exactly when the operand's value is null, as `AdvancedLaws.EvalNullOfQuoted` and `EvalListPredicateArity` state |
| AdvancedRuntime.Runtime.CheckList | scheme/advanced/scheme.cpp:322-340 | `list?` with its walk along the cdrs answers `CheckListSpec`: true exactly for null or a chain of cells ending in null |
| AdvancedRuntime.Runtime.Cons | scheme/advanced/scheme.cpp:342-350 | `cons` answers `ConsSpec`: a new cell of the two unevaluated operands |
| AdvancedRuntime.Runtime.CarOrCdr | scheme/advanced/scheme.cpp:352-376 | `car` and `cdr` answer `CarCdrSpec`: the car or cdr of the operand's value, a non-cell value a runtime error |
| AdvancedRuntime.Runtime.IndexedOperands | scheme/advanced/scheme.cpp:386-395 | the shared prologue of `list-ref` and `list-tail` gives `IndexedList`: two operands, a form and a number, and the flattened value of the form; `AdvancedLaws.IndexedOfList` and `EvalIndexedBadOperands` state its outcomes |
| AdvancedRuntime.Runtime.ListRef | scheme/advanced/scheme.cpp:384-400 | `list-ref` answers `ListRefSpec`: the element at the index, an index at or past the end a runtime error, as `AdvancedLaws.EvalListRef` states |
| AdvancedRuntime.Runtime.ListTail | scheme/advanced/scheme.cpp:402-422 | `list-tail` with its copy loop answers `ListTailSpec`: an index past the end a runtime error, else new cells rebuilding the elements from the index on, as `AdvancedLaws.EvalListTail` and `EvalListTailOfList` state |
| AdvancedRuntime.Runtime.Define | scheme/advanced/scheme.cpp:440-456 | `define` gives `DefineSpec`: a symbol and a value, the value bound in the current frame |
| AdvancedRuntime.Runtime.Set | scheme/advanced/scheme.cpp:458-477 | `set!` gives `SetSpec`: a name error before evaluation when the current frame has no binding, else a rebinding |
| AdvancedRuntime.Runtime.If | scheme/advanced/scheme.cpp:479-528 | `if` gives `IfSpec`: two or three operands, a boolean condition, only the chosen branch evaluated |
| AdvancedRuntime.Runtime.SetCar | scheme/advanced/scheme.cpp:530-542 | `set-car!` gives `SetCarSpec`: the first value's car replaced in place by the second value |
| AdvancedRuntime.Runtime.SetCdr | scheme/advanced/scheme.cpp:566-576 | `set-cdr!` gives `SetCdrSpec`: the first value's cdr replaced in place by the second value |
| AdvancedRuntime.Runtime.MakeLambda | scheme/advanced/scheme.cpp:544-564 | `lambda` answers `MakeLambdaSpec`: a new lambda of the names and body `LambdaParts` finds, without a frame |
| AdvancedRuntime.Runtime.LambdaExecute | scheme/advanced/object.cpp:96-104 | `Lambda::Execute` gives the state and result of `AdvancedScheme.LambdaExecute`: the body run in the lambda's frame, the last value answered, the parent frame made current |
| AdvancedRuntime.Interpreter.constructor | scheme/advanced/scheme.h:9-12 | constructing the interpreter leaves the globals as `Reset` describes |
| AdvancedRuntime.Interpreter.Run | scheme/advanced/scheme.cpp:616-634 | `Run` gives the state and text of `RunSpec`: one expression read to the end of the input, nothing typed a runtime error, the value printed with `()` for null and brackets round a cell |
| AdvancedLaws.DivergedWalkSawCells | scheme/advanced/scheme.cpp:19-22 | a walk of `CellToVector` that gives up has passed `steps + 2` cells in a row along the cdrs |
| AdvancedLaws.EndlessWalkDiverges | scheme/advanced/scheme.cpp:19-22 | on a cdr chain that never leaves the cells, the walk gives up, whatever its bound |
| AdvancedLaws.WalkDivergesIffEndless | scheme/advanced/scheme.cpp:19-22 | with the bound of one step per heap object, the walk gives up exactly when the source's loop would run for ever: both directions |
| AdvancedLaws.LastCellLikeWalk | scheme/advanced/scheme.cpp:332-334 | the walk of `list?` gives up exactly when the walk of `CellToVector` does |
| AdvancedLaws.LastCellDivergesIffEndless | scheme/advanced/scheme.cpp:332-334 | the walk of `list?` gives up exactly when its source loop would never end |
| AdvancedLaws.RepresentedChainEnds | scheme/advanced/scheme.cpp:19-22 | the objects the reader builds for a tree have a cdr chain that ends, after as many cells as the tree's spine |
| AdvancedLaws.WalkOfRepresented | scheme/advanced/scheme.cpp:14-33 | walking the objects of a tree that does not go round gives one object per element the basic variant flattens the tree to, each representing that element |
| AdvancedLaws.CellToVectorOfRepresented | scheme/advanced/scheme.cpp:14-33 | `CellToVector` of the objects of a tree agrees, element for element, with the basic variant's `CellToVector` of the tree, including a dotted tail as one more element |
| AdvancedLaws.OperandsOfChain | scheme/advanced/scheme.cpp:14-33 | the operand chain of a form flattens to the operands, in order |
| AdvancedLaws.PrintOfRepresented | scheme/advanced/scheme.cpp:627-633 | a value that represents a tree prints as the basic variant prints that tree |
| AdvancedLaws.DivergedPrintPath | scheme/advanced/object.cpp:48-59 | a print that gives up at depth `n` has recursed through `n + 1` cells with non-null cars, each the car or cdr of the one before |
| AdvancedLaws.PrintDivergesOnRepeat | scheme/advanced/object.cpp:48-59 | a print that gives up is sound: the recursion of `Cell::ToString` meets again a cell it is already inside, so the source never returns |
| AdvancedLaws.EvalNumber | scheme/advanced/scheme.cpp:636-638 | a number evaluates to a copy of itself at a fresh address, and nothing else changes |
| AdvancedLaws.EvalSymbol | scheme/advanced/scheme.cpp:640-649 | any symbol other than `#t` and `#f` evaluates to the very object bound to it in the current frame, and to a name error when the current frame does not bind it, even if an enclosing frame does |
| AdvancedLaws.EvalFormAt | scheme/advanced/scheme.cpp:651-686 | a form whose head names a functor other than `define` is that functor applied to its proper operand chain |
| AdvancedLaws.EvalCheckedNumbers | scheme/advanced/scheme.cpp:53-58 | evaluating number literals in place copies each, so the values are fresh numbers holding the same integers, in order |
| AdvancedLaws.OperandsOfNumbers | scheme/advanced/scheme.cpp:52-58 | the operands of a form of number literals evaluate to fresh copies holding those numbers |
| AdvancedLaws.DefFirstOfNumbers | scheme/advanced/scheme.cpp:135-160 | `+` and `*` of number literals answer a fresh number holding the fold from 0 or 1 |
| AdvancedLaws.NotDefFirstOfNumbers | scheme/advanced/scheme.cpp:186-208 | `-`, `/`, `max` and `min` of no operands are a runtime error; otherwise they answer a fresh number holding the fold from the first, or are stuck where the fold is |
| AdvancedLaws.EvalSum | scheme/advanced/scheme.cpp:123-160 | `+` answers a fresh number holding the sum of its operands (0 for none), and only the heap grows |
| AdvancedLaws.EvalProduct | scheme/advanced/scheme.cpp:129-160 | `*` answers a fresh number holding the product of its operands (1 for none) |
| AdvancedLaws.EvalDifference | scheme/advanced/scheme.cpp:162-208 | `-` of no operands is a runtime error; otherwise it answers the first minus the sum of the rest |
| AdvancedLaws.EvalQuotient | scheme/advanced/scheme.cpp:168-208 | `/` of no operands is a runtime error, a zero divisor after the first is undefined behaviour, and otherwise it answers the truncating quotient |
| AdvancedLaws.EvalMaximum | scheme/advanced/scheme.cpp:174-208 | `max` of no operands is a runtime error; otherwise it answers an operand no smaller than any other |
| AdvancedLaws.EvalMinimum | scheme/advanced/scheme.cpp:180-208 | `min` of no operands is a runtime error; otherwise it answers an operand no larger than any other |
| AdvancedLaws.EvalComparison | scheme/advanced/scheme.cpp:96-121 | a comparison of numbers answers a fresh `#t` exactly when the relation holds between every pair of neighbours, else a fresh `#f` |
| AdvancedLaws.EvalAbs | scheme/advanced/scheme.cpp:210-227 | `abs` of one number answers a fresh number holding its magnitude; any other count of operands is a runtime error |
| AdvancedLaws.RepresentsNil | scheme/parser/parser.cpp:50-51 | among the objects of a tree, the null pointer stands exactly for the empty list |
| AdvancedLaws.EvalBoolean | scheme/advanced/scheme.cpp:640-644 | `#t` and `#f` evaluate to fresh copies of themselves |
| AdvancedLaws.EvalQuote | scheme/advanced/scheme.cpp:229-237 | `quote` answers the very object of its operand, unevaluated, and changes nothing |
| AdvancedLaws.EvalCons | scheme/advanced/scheme.cpp:342-350 | `cons` answers a new cell whose car and cdr are the objects of its two operands, unevaluated and not copied |
| AdvancedLaws.ConsForm | scheme/advanced/scheme.cpp:651-686 | a `cons` form is `Cons` applied to its two-element operand chain |
| AdvancedLaws.ConsOfOperands | scheme/advanced/scheme.cpp:342-350 | `Cons` of a two-element chain adds one cell holding the two elements, and nothing else changes |
| AdvancedLaws.EvalCarOfCons | scheme/advanced/scheme.cpp:352-363 | `car` of a `cons` answers the object of the first operand of the `cons` itself |
| AdvancedLaws.EvalCdrOfCons | scheme/advanced/scheme.cpp:365-376 | `cdr` of a `cons` answers the object of the second operand of the `cons` |
| AdvancedLaws.EvalIsBooleanOf | scheme/advanced/scheme.cpp:239-248 | `boolean?` does not evaluate its operand: a new `#t` exactly for one operand written `#t` or `#f`, else a new `#f`, and only the heap grows, by that object |
| AdvancedLaws.EvalNotOf | scheme/advanced/scheme.cpp:250-261 | `not` with other than one operand is a runtime error and changes nothing; with one, a new `#t` exactly when it is written `#f` |
| AdvancedLaws.TypeTestOfOne | scheme/advanced/scheme.cpp:50-64 | `number?` and `symbol?` of one operand: the operand is evaluated, then a new `#t` exactly when its value has the type |
| AdvancedLaws.EvalTypeTestOfQuoted | scheme/advanced/scheme.cpp:50-64 | `number?` (`symbol?`, lines 424-438) of a quoted tree answers a new `#t` exactly when the tree is a number (a symbol), and only that object is added |
| AdvancedLaws.EvalIsNumberOfSum | scheme/advanced/scheme.cpp:50-64 | `number?` sees the value of its operand: of a sum it answers a new `#t`, unlike the basic variant |
| AdvancedLaws.EvalIsPairOfQuoted | scheme/advanced/scheme.cpp:295-307 | `pair?` of a quoted list answers a new `#t` exactly when the list flattens to two elements |
| AdvancedLaws.EvalNullOfQuoted | scheme/advanced/scheme.cpp:309-320 | `null?` of a quoted tree answers a new `#t` exactly for `()` |
| AdvancedLaws.EvalListPredicateArity | scheme/advanced/scheme.cpp:295-340 | `pair?`, `null?` and `list?` with other than one operand are a runtime error and change nothing |
| AdvancedLaws.IndexedOfList | scheme/advanced/scheme.cpp:386-395 | the operands `(list ...)` and a literal `k` give, with nothing changed, the index `k` and the very objects written in the list form |
| AdvancedLaws.EvalListRef | scheme/advanced/scheme.cpp:384-400 | `list-ref` answers the object at the index itself, with nothing changed; an index outside the list (negative, or at or past the end) is a runtime error |
| AdvancedLaws.BuildListAtRepresents | scheme/parser/parser.cpp:48-63 | building a list of objects succeeds exactly when the reader's `BuildList` of the trees they represent does, and the new cells represent the tree it builds; otherwise both are a syntax error |
| AdvancedLaws.EvalListTail | scheme/advanced/scheme.cpp:402-422 | `list-tail` with an index in `0..length` only grows the heap and answers new cells representing `BuildList` of the elements from the index on, or its syntax error; any other index is a runtime error and changes nothing |
| AdvancedLaws.EvalListTailOfList | scheme/advanced/scheme.cpp:402-422 | without dots, `list-tail` answers new cells representing the chain of the elements from the index on, as the basic variant does; an index past the end is a runtime error |
| AdvancedLaws.EvalIndexedBadOperands | scheme/advanced/scheme.cpp:386-392 | `list-ref` and `list-tail` with other than two operands, a first not written as a form, or a second not a number literal, are a runtime error, with nothing evaluated or changed |
| AdvancedLaws.IfOperands | scheme/advanced/scheme.cpp:479-481 | an `if` form flattens to its operands and is `If` applied to them |
| AdvancedLaws.EvalIfArity | scheme/advanced/scheme.cpp:525-527 | `if` with other than two or three operands is a syntax error and evaluates nothing |
| AdvancedLaws.EvalIfTrue | scheme/advanced/scheme.cpp:482-497 | with the condition `#t`, `if` answers the value of the second operand, evaluated after the condition's copy; the third is never evaluated |
| AdvancedLaws.EvalIfFalse | scheme/advanced/scheme.cpp:482-524 | with the condition `#f`, `if` answers the value of the third operand, or null when there is none; the second is never evaluated |
| AdvancedLaws.EvalIfNumber | scheme/advanced/scheme.cpp:486-488 | a condition that evaluates to a number is a syntax error, after the condition's copy |
| AdvancedLaws.BindRebinds | scheme/advanced/scheme.cpp:452 | binding a name changes the current frame at that name only, and no other frame |
| AdvancedLaws.DefineForm | scheme/advanced/scheme.cpp:681-684 | a `define` form is `Define` applied to its operands, and answers its own head symbol on success |
| AdvancedLaws.DefineOfNumber | scheme/advanced/scheme.cpp:440-456 | `Define` of a name and a number binds the name to a fresh copy of the number |
| AdvancedLaws.EvalDefineNumber | scheme/advanced/scheme.cpp:440-456 | `(define x n)` binds `x` in the current frame to a fresh copy of `n`, changes no other frame, and answers the symbol `define` |
| AdvancedLaws.DefineThenLookup | scheme/advanced/scheme.cpp:640-649 | after `(define x n)`, `x` evaluates to the very object `define` stored |
| AdvancedLaws.DefineOfSymbol | scheme/advanced/scheme.cpp:440-456 | `Define` of a name and a bound symbol binds the name to the object the symbol names |
| AdvancedLaws.EvalDefineAlias | scheme/advanced/scheme.cpp:440-456 | `(define y x)` makes `y` name the very object `x` names: no copy is made |
| AdvancedLaws.SetForm | scheme/advanced/scheme.cpp:651-686 | a `set!` form is `Set` applied to its operands |
| AdvancedLaws.EvalSetUnbound | scheme/advanced/scheme.cpp:466-468 | `set!` of a name the current frame does not bind is a name error before anything is evaluated, whatever the value and whether or not an enclosing frame binds the name |
| AdvancedLaws.SetOfNumber | scheme/advanced/scheme.cpp:458-477 | `Set` of a bound name and a number rebinds the name to a fresh copy |
| AdvancedLaws.EvalSetNumber | scheme/advanced/scheme.cpp:458-477 | `set!` of a bound name rebinds it in the current frame to a fresh copy of the number and answers null |
| AdvancedLaws.SetCarForm | scheme/advanced/scheme.cpp:651-686 | a `set-car!` form is `SetCar` applied to its operands |
| AdvancedLaws.SetCarOfNumber | scheme/advanced/scheme.cpp:530-542 | `SetCar` of a name bound to a cell and a number stores a fresh copy of the number as that cell's car |
| AdvancedLaws.EvalSetCar | scheme/advanced/scheme.cpp:530-542 | `(set-car! y n)` changes the cell `y` names in place: its car becomes a fresh copy of `n`, its cdr stays, no other object and no frame changes, and it answers null |
| AdvancedLaws.SetCarVisibleThroughAlias | scheme/advanced/scheme.cpp:530-542 | a cell is shared by every name bound to it: after `(set-car! y n)`, a name bound to the same cell evaluates to that cell, whose car is the copy of `n` |
| AdvancedLaws.ShortCircuitForm | scheme/advanced/scheme.cpp:263-293 | an `and` or `or` form is the evaluation loop over its operands |
| AdvancedLaws.EvalShortCircuitEmpty | scheme/advanced/scheme.cpp:272-274 | `(and)` answers a fresh `#t` and `(or)` a fresh `#f` (line 289) |
| AdvancedLaws.EvalShortCircuitStops | scheme/advanced/scheme.cpp:266-271 | an `and` whose first operand is `#f` (an `or` whose first is `#t`) answers a fresh copy of that symbol and evaluates nothing else |
| AdvancedLaws.ShortCircuitNumbers | scheme/advanced/scheme.cpp:266-276 | the loop of `and` and `or` over number literals copies each and answers the last copy |
| AdvancedLaws.EvalShortCircuitNumbers | scheme/advanced/scheme.cpp:263-293 | `and` and `or` of numbers answer the copy of the last one, after copying each |
| AdvancedLaws.RunBodyNumbers | scheme/advanced/object.cpp:98-100 | the body loop of a lambda over number literals copies each but the last |
| AdvancedLaws.LambdaExecuteNumbers | scheme/advanced/object.cpp:96-104 | running a lambda whose frame is `s` evaluates its body and answers the last value; afterwards the current frame is the parent of `s`, whichever frame was current before |
| AdvancedLaws.LambdaWithoutFrame | scheme/advanced/object.cpp:91-104 | a lambda built from a body and names has no frame, so leaving it makes a call through null |
| AdvancedLaws.NamesOfSymbols | scheme/advanced/scheme.cpp:558-560 | the parameter names of a list of symbols are the symbols' names |
| AdvancedLaws.LambdaPartsOfChain | scheme/advanced/scheme.cpp:544-564 | `MakeLambda` of a list whose second element is a list of symbols takes those as the parameter names and the elements from the third on as the body |
| AdvancedLaws.EvalLambdaFromTable | scheme/advanced/scheme.cpp:578-614 | `lambda` through the functor table is given its operands, so the names come from its second operand, the body starts at the third, and the first operand is ignored |
| AdvancedLaws.InlineLambdaIsUndefined | scheme/advanced/scheme.cpp:656-660 | applying a lambda written in place builds a lambda without a frame and runs it, so it ends in a call through null once its body has run |
| AdvancedLaws.ResetForgets | scheme/advanced/scheme.h:9-12 | after constructing an `Interpreter`, every name other than `#t` and `#f` is a name error |
| AdvancedLaws.RunAgrees | scheme/advanced/scheme.cpp:616-634 | when the advanced evaluator answers objects representing the tree the basic evaluator answers, both `Run`s print the same text |
| AdvancedLaws.RunQuoteAgrees | scheme/advanced/scheme.cpp:616-634 | both interpreters print a quoted tree alike |
| AdvancedLaws.RunSumAgrees | scheme/advanced/scheme.cpp:616-634 | both interpreters print the same sum |
| AdvancedLaws.RunShownSumAgrees | scheme/advanced/scheme.cpp:616-634 | the printed text of a sum of literals runs in both interpreters to the same text, the decimal form of the sum (the reading hypothesis discharged by `ShowReadsAs`) |
| AdvancedLaws.RunShownQuoteAgrees | scheme/advanced/scheme.cpp:616-634 | the printed text of a quoted tree runs in both interpreters to the same text |
| SharedOwnership.Pointee.constructor | smart-ptrs/shared-from-this/shared.h:209 | a class derived from `EnableSharedFromThis`, and only such a class, has a `weak_this_`, and it starts empty |
| SharedOwnership.Pointee.Destroy | smart-ptrs/shared-from-this/shared.h:209 | destroying the pointee destroys its `weak_this_`, which gives up that observation of its block |
| SharedOwnership.Pointee.SharedFromThis | smart-ptrs/shared-from-this/shared.h:195-200 | `SharedFromThis` throws `BadWeakPtr` exactly when no `SharedPtr` owns the object any more (or none ever did), leaving the block's counts as they were; otherwise it answers a new owner of the same block that points at the object, with one more owner registered |
| SharedOwnership.Pointee.WeakFromThis | smart-ptrs/shared-from-this/shared.h:202-207 | `WeakFromThis` answers a new observer of the same block and object, with one more observer registered |
| SharedOwnership.Block.constructor | smart-ptrs/weak/sw_fwd.h:22-27 | a new control block (`BlockObject` at lines 22-27, `BlockPtr` at lines 64-69) starts with one owner and no observer, its object alive |
| SharedOwnership.Block.PassOwnerTo | smart-ptrs/shared-from-this/shared.h:142-145 | the ghost side of a swap or move: the ticket now names the other pointer, and no count changes |
| SharedOwnership.Block.PassWatcherTo | smart-ptrs/shared-from-this/weak.h:106-109 | the same for an observer |
| SharedOwnership.Block.IncS | smart-ptrs/weak/sw_fwd.h:30-32 | `IncS` adds one to the owner count and registers the new owner under a fresh ticket (also lines 72-74); the count still equals the number of owners |
| SharedOwnership.Block.IncW | smart-ptrs/weak/sw_fwd.h:33-35 | `IncW` adds one to the observer count and registers the new observer (also lines 75-77) |
| SharedOwnership.Block.DecS | smart-ptrs/weak/sw_fwd.h:36-44 | `DecS` removes one owner; the last owner destroys the object, once, and the block is freed when no observer is left afterwards (also lines 78-86) |
| SharedOwnership.Block.Expire | smart-ptrs/weak/sw_fwd.h:38-43 | at owner count zero the object is destroyed; the block is freed at once when there are no observers, or when the only one is the object's own `weak_this_`, which destroying the object ends |
| SharedOwnership.Block.DestroyObject | smart-ptrs/weak/sw_fwd.h:39 | destroying the object (`destroy_at` here, `delete obj_` at line 81) ends the observation of the object's own `weak_this_` and changes nothing else |
| SharedOwnership.Block.DecW | smart-ptrs/weak/sw_fwd.h:45-50 | `DecW` removes one observer and frees the block when both counts are zero; the object is never touched (also lines 87-92) |
| SharedOwnership.AddThenPass | smart-ptrs/shared-from-this/shared.h:100-103 | copying onto a block and swapping the copy into place registers exactly one new owner |
| SharedOwnership.PassThenDrop | smart-ptrs/shared-from-this/shared.h:100-103 | swapping an owner's ticket into a temporary and destroying the temporary ends that ownership |
| SharedOwnership.AddThenDrop | smart-ptrs/shared-from-this/shared.h:100-103 | a temporary copy that is destroyed again leaves the block exactly as it was: self-assignment is harmless |
| SharedOwnership.PassTwice | smart-ptrs/shared-from-this/shared.h:111-114 | passing a ticket on twice is passing it straight to the last holder |
| SharedOwnership.PassBack | smart-ptrs/shared-from-this/shared.h:111-114 | passing a ticket to the pointer that holds it changes nothing: self-move is harmless |
| SharedOwnership.AddThenPassWatcher | smart-ptrs/shared-from-this/weak.h:63-66 | copy-and-swap of an observer registers exactly one new observer |
| SharedOwnership.PassThenDropWatcher | smart-ptrs/shared-from-this/weak.h:63-66 | swapping an observer's ticket into a destroyed temporary ends that observation |
| SharedOwnership.AddThenDropWatcher | smart-ptrs/shared-from-this/weak.h:63-66 | a temporary observer that is destroyed again leaves the block as it was |
| SharedOwnership.PassTwiceWatcher | smart-ptrs/shared-from-this/weak.h:80-83 | passing an observer's ticket on twice is passing it to the last holder |
| SharedOwnership.PassBackWatcher | smart-ptrs/shared-from-this/weak.h:80-83 | passing an observer's ticket to its holder changes nothing |
| SharedOwnership.SharedPtr.constructor | smart-ptrs/shared-from-this/shared.h:14-20 | the default and null constructors hold no block and point at nothing; the same code, without `weak_this_`, is at smart-ptrs/shared/shared.h:112-118 |
| SharedOwnership.SharedPtr.FromRaw | smart-ptrs/shared-from-this/shared.h:22-29 | owning a raw pointer makes a new `BlockPtr` with this pointer its only owner; an `EnableSharedFromThis` object's `weak_this_` becomes the block's only observer, pointing at the object; the same code, without `weak_this_`, is at smart-ptrs/shared/shared.h:120-124 |
| SharedOwnership.SharedPtr.Make | smart-ptrs/shared-from-this/shared.h:63-73 | `MakeShared` (lines 186-189) makes a `BlockObject` holding a new object, with this pointer its only owner and the object's `weak_this_`, if any, its only observer; the same code, without `weak_this_`, is at smart-ptrs/shared/shared.h:158-164, 268-271 |
| SharedOwnership.SharedPtr.InitWeakThis | smart-ptrs/shared-from-this/shared.h:171-174 | `weak_this_` is made an observer of this pointer's block and object, registered once |
| SharedOwnership.SharedPtr.Copy | smart-ptrs/shared-from-this/shared.h:31-46 | a copy shares the block and pointee, and the block registers one more owner; the same code, without `weak_this_`, is at smart-ptrs/shared/shared.h:126-141 |
| SharedOwnership.SharedPtr.Move | smart-ptrs/shared-from-this/shared.h:48-61 | a move takes over the block, pointee and registration; the source is left empty; the same code, without `weak_this_`, is at smart-ptrs/shared/shared.h:143-156 |
| SharedOwnership.SharedPtr.Alias | smart-ptrs/shared-from-this/shared.h:77-82 | the aliasing constructor shares the block and counts one more owner but points at the given object; the same code, without `weak_this_`, is at smart-ptrs/shared/shared.h:168-173 |
| SharedOwnership.SharedPtr.FromWeak | smart-ptrs/shared-from-this/shared.h:86-95 | promoting a live `WeakPtr` shares its block and pointee with one more owner registered |
| SharedOwnership.SharedPtr.Promote | smart-ptrs/shared-from-this/shared.h:86-95 | promotion throws `BadWeakPtr` exactly when the use count is zero, and otherwise registers a new owner of the same block and pointee |
| SharedOwnership.SharedPtr.Drop | smart-ptrs/shared-from-this/shared.h:125-129 | the destructor gives up this pointer's ownership as `DecS` describes; the same code, without `weak_this_`, is at smart-ptrs/shared/shared.h:214-218 |
| SharedOwnership.SharedPtr.Swap | smart-ptrs/shared-from-this/shared.h:142-145 | `Swap` exchanges blocks and pointees; no count changes, and each registration now names the pointer that holds the block; the same code, without `weak_this_`, is at smart-ptrs/shared/shared.h:231-234 |
| SharedOwnership.SharedPtr.Assign | smart-ptrs/shared-from-this/shared.h:100-109 | copy assignment leaves this pointer holding the other's block and pointee; between different blocks the new block gains this owner and the old one loses it; onto the same block nothing changes; the same code, without `weak_this_`, is at smart-ptrs/shared/shared.h:189-198 |
| SharedOwnership.SharedPtr.MoveAssign | smart-ptrs/shared-from-this/shared.h:111-120 | move assignment takes over the other's block and empties it; self-move changes nothing; the old block loses this owner; onto the same block, one owner fewer; the same code, without `weak_this_`, is at smart-ptrs/shared/shared.h:200-209 |
| SharedOwnership.SharedPtr.Adopt | smart-ptrs/shared-from-this/shared.h:101 | swapping with a temporary and destroying it: this pointer takes over the temporary's block and gives up its own ownership |
| SharedOwnership.SharedPtr.Reset | smart-ptrs/shared-from-this/shared.h:134-136 | `Reset()` gives up ownership and leaves the pointer empty; the same code, without `weak_this_`, is at smart-ptrs/shared/shared.h:223-225 |
| SharedOwnership.SharedPtr.ResetTo | smart-ptrs/shared-from-this/shared.h:138-141 | `Reset(ptr)` owns the object through a new block, as the only owner, and gives up the old ownership; the same code, without `weak_this_`, is at smart-ptrs/shared/shared.h:227-230 |
| SharedOwnership.WeakPtr.constructor | smart-ptrs/shared-from-this/weak.h:12-15 | the default constructor observes nothing |
| SharedOwnership.WeakPtr.Copy | smart-ptrs/shared-from-this/weak.h:17-32 | a copy shares the block and pointee, and the block registers one more observer |
| SharedOwnership.WeakPtr.Move | smart-ptrs/shared-from-this/weak.h:34-47 | a move takes over the observation; the source is left empty |
| SharedOwnership.WeakPtr.FromShared | smart-ptrs/shared-from-this/weak.h:51-58 | demoting a `SharedPtr` observes its block and pointee; the owner count does not change |
| SharedOwnership.WeakPtr.Drop | smart-ptrs/shared-from-this/weak.h:94-98 | the destructor ends the observation as `DecW` describes |
| SharedOwnership.WeakPtr.Swap | smart-ptrs/shared-from-this/weak.h:106-109 | `Swap` exchanges blocks and pointees; no count changes |
| SharedOwnership.WeakPtr.Assign | smart-ptrs/shared-from-this/weak.h:63-72 | copy assignment from a `WeakPtr` observes the other's block; the new block gains this observer and the old loses it, or nothing changes onto the same block |
| SharedOwnership.WeakPtr.AssignShared | smart-ptrs/shared-from-this/weak.h:74-78 | assignment from a `SharedPtr` observes its block, with the same accounting |
| SharedOwnership.WeakPtr.MoveAssign | smart-ptrs/shared-from-this/weak.h:80-89 | move assignment takes over the other's observation and empties it; self-move changes nothing |
| SharedOwnership.WeakPtr.Adopt | smart-ptrs/shared-from-this/weak.h:64 | swapping with a temporary and destroying it: this pointer takes over the temporary's block and stops observing its own |
| SharedOwnership.WeakPtr.Reset | smart-ptrs/shared-from-this/weak.h:103-105 | `Reset` ends the observation and leaves the pointer empty |
| SharedOwnership.WeakPtr.Lock | smart-ptrs/shared-from-this/weak.h:123-125 | `Lock` answers an empty `SharedPtr` when expired, changing nothing, and otherwise a new owner of the block and pointee |
| SharedOwnership.UseCountCountsOwners | smart-ptrs/shared-from-this/shared.h:159-167 | `UseCount` is the number of `SharedPtr`s registered as owners of the block, and `operator bool` is true exactly when it is positive; the same code, without `weak_this_`, is at smart-ptrs/shared/shared.h:248-256 |
| SharedOwnership.OwnedIsAlive | smart-ptrs/weak/sw_fwd.h:36-44 | while a `SharedPtr` holds a block, the object has not been destroyed and the block not freed |
| SharedOwnership.ExpiredIffDestroyed | smart-ptrs/shared-from-this/weak.h:120-122 | a `WeakPtr` with a block keeps the block allocated, is expired exactly when the object has been destroyed, and the object is destroyed at most once |
| Intrusive.Inc | smart-ptrs/intrusive/intrusive.h:9 | `++count_` on a `size_t` stays within 64 bits |
| Intrusive.Dec | smart-ptrs/intrusive/intrusive.h:13 | `--count_` on a `size_t` stays within 64 bits |
| Intrusive.IncThenDec | smart-ptrs/intrusive/intrusive.h:8-15 | below the largest value, incrementing adds one and decrementing undoes it |
| Intrusive.DecOfPositive | smart-ptrs/intrusive/intrusive.h:12-15 | a positive count drops by one and reaches zero exactly from one; zero wraps round to the largest `size_t` |
| Intrusive.SimpleCounter.constructor | smart-ptrs/intrusive/intrusive.h:25 | a new counter is zero |
| Intrusive.SimpleCounter.IncRef | smart-ptrs/intrusive/intrusive.h:8-11 | `IncRef` increments modulo 2^64 and returns the new value |
| Intrusive.SimpleCounter.DecRef | smart-ptrs/intrusive/intrusive.h:12-15 | `DecRef` decrements modulo 2^64 and returns the new value |
| Intrusive.SimpleCounter.Assign | smart-ptrs/intrusive/intrusive.h:19-22 | assigning from any counter leaves the count as it is |
| Intrusive.AddThenPass | smart-ptrs/intrusive/intrusive.h:111-114 | copying onto an object and swapping the copy into place registers exactly one new holder |
| Intrusive.PassThenDrop | smart-ptrs/intrusive/intrusive.h:111-118 | swapping a ticket into a temporary and destroying the temporary ends that reference |
| Intrusive.AddThenDrop | smart-ptrs/intrusive/intrusive.h:111-114 | a temporary copy that is destroyed again leaves the object as it was: self-assignment is harmless |
| Intrusive.PassTwice | smart-ptrs/intrusive/intrusive.h:115-118 | passing a ticket on twice is passing it straight to the last holder |
| Intrusive.PassBack | smart-ptrs/intrusive/intrusive.h:115-118 | passing a ticket to the pointer that holds it changes nothing: self-move is harmless |
| Intrusive.RefCounted.constructor | smart-ptrs/intrusive/intrusive.h:35-61 | a new counted object has count zero, no holder, and is alive |
| Intrusive.RefCounted.PassTo | smart-ptrs/intrusive/intrusive.h:134-136 | the ghost side of a swap or move: the ticket now names the other pointer, and the count stays |
| Intrusive.RefCounted.IncRef | smart-ptrs/intrusive/intrusive.h:39-41 | `IncRef` on a live object adds one to the count and registers the new holder; the count still equals the number of holders |
| Intrusive.RefCounted.DecRef | smart-ptrs/intrusive/intrusive.h:45-49 | `DecRef` removes one holder, and the object is destroyed, once, exactly when the count reaches zero |
| Intrusive.RefCounted.Assign | smart-ptrs/intrusive/intrusive.h:55-57 | assigning one counted object to another leaves this one's count as it is |
| Intrusive.IntrusivePtr.constructor | smart-ptrs/intrusive/intrusive.h:73-77 | the default and null constructors hold null |
| Intrusive.IntrusivePtr.FromRaw | smart-ptrs/intrusive/intrusive.h:78-83 | a non-null raw pointer is held and counted once more; null is held and counts nothing |
| Intrusive.IntrusivePtr.Copy | smart-ptrs/intrusive/intrusive.h:85-104 | a copy holds the same object, counted once more |
| Intrusive.IntrusivePtr.Move | smart-ptrs/intrusive/intrusive.h:93-108 | a move takes over the object and its reference; the source is left null |
| Intrusive.IntrusivePtr.Drop | smart-ptrs/intrusive/intrusive.h:121-125 | the destructor calls `DecRef` only when non-null |
| Intrusive.IntrusivePtr.Swap | smart-ptrs/intrusive/intrusive.h:134-136 | `Swap` exchanges the objects; no count changes |
| Intrusive.IntrusivePtr.Adopt | smart-ptrs/intrusive/intrusive.h:112 | swapping with a temporary and destroying it: this pointer takes over the temporary's object and gives up its own reference |
| Intrusive.IntrusivePtr.Assign | smart-ptrs/intrusive/intrusive.h:111-114 | copy assignment holds the other's object; between different objects the new one gains this holder and the old loses it; onto the same object nothing changes |
| Intrusive.IntrusivePtr.MoveAssign | smart-ptrs/intrusive/intrusive.h:115-118 | move assignment takes over the other's object and leaves it null; self-move changes nothing; onto the same object, one reference fewer |
| Intrusive.IntrusivePtr.Reset | smart-ptrs/intrusive/intrusive.h:128-130 | `Reset()` gives up the reference and holds null |
| Intrusive.IntrusivePtr.ResetTo | smart-ptrs/intrusive/intrusive.h:131-133 | `Reset(ptr)` counts a reference to `ptr` before giving up the old one, so resetting to the object already held changes nothing |
| Intrusive.UseCountCountsHolders | smart-ptrs/intrusive/intrusive.h:148-156 | `UseCount` is the number of registered holders, and `operator bool` is true exactly when it is positive |
| Intrusive.HeldIsAlive | smart-ptrs/intrusive/intrusive.h:45-49 | an object some pointer holds has not been destroyed |
| Intrusive.DropDestroysAtZero | smart-ptrs/intrusive/intrusive.h:45-49 | the last reference's `DecRef` destroys the object, once; every other one leaves it alive with the count one lower |
| Unique.DisposedAppend | smart-ptrs/unique/unique.h:96 | one more call to the deleter disposes of exactly the address it is given, and of nothing for null |
| Unique.ReleaseHandsOver | smart-ptrs/unique/unique.h:102-106 | `Release` hands the held address to the caller: it leaves the pointer's account, the pointer becomes null, and no deleter runs |
| Unique.ResetAccounts | smart-ptrs/unique/unique.h:107-111 | `Reset(p)` takes `p` into the account and gives the previous pointer to the deleter exactly once |
| Unique.DestroyAccounts | smart-ptrs/unique/unique.h:95-97 | the destructor gives what is held to the deleter, once |
| Unique.AssignNullAccounts | smart-ptrs/unique/unique.h:85-90 | assigning null disposes of a held address and leaves the pointer null; a null pointer is left untouched, with no call to the deleter |
| Unique.MoveAssignAccounts | smart-ptrs/unique/unique.h:60-70 | move assignment neither loses nor duplicates an address: the two pointers together account for what they did before; when the pointers differ, the target ends with the source's pointer and deleter and the source is null |
| Unique.MovedFromAccounts | smart-ptrs/unique/unique.h:51-55 | the move constructor: the new pointer accounts for what the source held, and the source for nothing more than its past calls |
| Unique.SwapTwice | smart-ptrs/unique/unique.h:112-115 | swapping twice restores both pointers |
| Unique.ResetsThenDestroy | smart-ptrs/unique/unique.h:95-111 | a pointer reset to each of a sequence of pointers and then destroyed calls its deleter once for every pointer it ever held, in the order it held them, and for nothing else |
| Unique.UniquePtr.constructor | smart-ptrs/unique/unique.h:40-43 | the raw-pointer constructor (array form at lines 153-156) holds the pointer with `Slug<T>` or `Slug<T[]>`, having called no deleter |
| Unique.UniquePtr.WithDeleter | smart-ptrs/unique/unique.h:45-49 | the constructor with a deleter (array form at lines 158-162) holds the pointer and that deleter |
| Unique.UniquePtr.Move | smart-ptrs/unique/unique.h:51-55 | the move constructor (array form at lines 164-168) takes the source's released pointer and its deleter; the source is null |
| Unique.UniquePtr.Release | smart-ptrs/unique/unique.h:102-106 | `Release` (lines 215-219) returns the held pointer and leaves null, without calling the deleter |
| Unique.UniquePtr.Reset | smart-ptrs/unique/unique.h:107-111 | `Reset(p)` (lines 220-224) stores `p` first and then calls the deleter on the old pointer, null or not |
| Unique.UniquePtr.CallDeleter | smart-ptrs/unique/unique.h:110 | one call `GetDeleter()(p)` is logged, and nothing else changes |
| Unique.UniquePtr.Swap | smart-ptrs/unique/unique.h:112-115 | `Swap` (lines 225-228) exchanges the pointers and the deleters; no deleter runs |
| Unique.UniquePtr.MoveAssign | smart-ptrs/unique/unique.h:60-83 | move assignment (lines 173-196) does nothing when both hold the same pointer, self-move included; otherwise it resets a held pointer, then takes the source's pointer and deleter and leaves the source null |
| Unique.UniquePtr.AssignNull | smart-ptrs/unique/unique.h:85-90 | `= nullptr` (lines 198-203) resets only a non-null pointer |
| Unique.UniquePtr.Drop | smart-ptrs/unique/unique.h:95-97 | the destructor (lines 208-210) calls the deleter on the held pointer, null or not |
| Unique.UniquePtr.Index | smart-ptrs/unique/unique.h:255-257 | `operator[]` of the array form answers the address `i` elements past the first |

## Left out

**Integers and undefined behaviour**

- Integers are unbounded. The 32-bit `int` of the Scheme functors, `std::stoi` overflow on long literals, and the `size_t` conversion of a negative index in `list-ref` and `list-tail` are not modelled. A negative index is treated as out of range.
- Undefined behaviour in the interpreter is modelled as the outcome `Stuck(UndefinedBehaviour)` rather than excluded by preconditions. No caller of the C++ code is kept from reaching it, and the model shows where it is reached.
- Division by zero in `/` is undefined behaviour in the C++ code, and the model says so. C++ division truncates toward zero, and the model writes that out.

**Evaluator depth and walks**

- Evaluation depth is bounded by a fuel parameter. When the fuel runs out, the outcome is `Stuck(OutOfFuel)`. The laws hold for any fuel large enough for the expression.
- Walks along cdr chains stop after one more step than the heap has objects. Such a walk is going round a cycle, where the C++ loop never ends, and `AdvancedLaws.WalkDivergesIffEndless` proves this bound exact.
- Printing a cell recurses at most as deep as the heap has objects. `AdvancedLaws.PrintDivergesOnRepeat` proves that a print which gives up has met a cell it is already inside, so the C++ recursion never returns. The converse, that every such revisit makes the print give up, is not proved.

**Lambdas and applications**

- Calling a user-defined lambda through its name is commented out in scheme/advanced/scheme.cpp:667-674. The `arguments` global is assigned at line 657 and never read, and parameters are never bound. None of this is modelled beyond what the code does.
- The inline-lambda path at scheme/advanced/scheme.cpp:656-660 and the construction at line 562 are malformed. They are modelled as what they evidently do: `MakeLambda`'s shape checks, then `Lambda::Execute` of a lambda whose frame is null.
- AdvancedScheme.SetCarSpec: the second value of `set-car!` passes through an unchecked `As<Cell>` (scheme/advanced/scheme.cpp:539). A cast to the wrong class is undefined in C++, but the pointer is only stored as an object pointer, so the model stores it whatever its class.

**Streams, text and memory**

- Stream plumbing (`istream` `peek`/`get`) is an input string with a read position. Error message text and `typeid` names are not modelled; only the three error kinds are.
- Memory mechanics are ghost state: placement `new`, `aligned_storage`, `launder`, `destroy_at`, `delete`, `delete[]` and virtual dispatch. Destruction and freeing become ghost flags and counts, and deleter calls become a ghost log.
- `CompressedPair` (smart-ptrs/unique/compressed_pair.h) exists only for its memory layout, and is modelled as two plain fields.
- Raw addresses of shared and intrusive pointees are not modelled: a pointer holds the pointee object itself. A `UniquePtr` holds a raw value (null or an address) and never dereferences it. `operator*`, `operator->` and `Get` are plain accessors without a contract of their own.

**Smart-pointer files and operations**

- smart-ptrs/shared/shared.h repeats the control blocks of smart-ptrs/weak/sw_fwd.h and the `SharedPtr` of smart-ptrs/shared-from-this/shared.h, without WeakPtr promotion and without `weak_this_`. One model serves both, as a pointee without `weak_this_`. The `EnableSharedFromThis` of that file (lines 274-282) only declares its members, and is not part of this model.
- `MakeIntrusive` (smart-ptrs/intrusive/intrusive.h:162-165) is malformed, and is not part of this model. `RefCounted` is modelled with `SimpleCounter` and `DefaultDelete` only. Copy-constructing a counted object, which copies its count, is not modelled.
- Intrusive.RefCounted.IncRef: requires the count to be below 2^64 - 1, where the C++ counter would wrap to zero; the wrapping arithmetic itself is modelled by `Inc` and `Dec`.
- SharedOwnership.SharedPtr.FromRaw: requires a pointee that no `SharedPtr` owns yet. Owning one object through two unrelated blocks is undefined behaviour in the C++ code, and is not modelled.
- Unique.UniquePtr.Move: a user-supplied deleter is modelled as unchanged once moved from, where C++ leaves its moved-from state to the deleter's own move.
- Unique.UniquePtr.Index: does not check the index against the array's length, which the pointer does not know; it states only which address is meant.
- Non-atomic counters have no concurrency to model.
