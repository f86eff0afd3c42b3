# a-sync: what its cores promise, and when

a-sync is a Syncthing client in Java with a small web client. This project models five of its cores in Dafny and
proves what their code and documentation promise, over every input, run or reachable state.

- **Template compiler** (the vendored Handlebars 4.0.5). `HandlebarsAst` is the tree, `HandlebarsCompiler` the first pass
  (a class that pushes opcodes, specified by `Emit*`), `CodeMachine` the two-stack machine that the opcodes drive, and
  `CodeGenerator` the class that does the same in place. `DirectCode` writes the code of every construct down without
  stacks, and `StackDiscipline` proves that the machine builds exactly that. `TemplateSemantics` is the meaning of a
  template read off its tree, `Execution` the meaning of the generated code; `ExpressionMeaning`, `BufferMerging` and
  `TemplateMeaning` prove that the two agree. `ProgramTable` and `ProgramSharing` are the table through which equal
  programs share a function, `BlockParameters` who is handed block parameters by them, `ExactCompilation` (with
  `StackHeights`) says exactly which templates compile, and `HandlebarsLimits` where other promises end. `JsValues` is
  JavaScript's `+` on what templates write.
- **Relay over HTTP**. `RelaySession` and `RelayServer` are the server, `RelayClient` the client (classes with the
  source's fields, each method tied to a function of the state), and `RelayProtocol` is the whole system as a state
  machine over a network that loses, repeats and reorders messages.
- **Block transfer**. `BlockPusher` cuts and answers, `BlockPuller` collects, `FileBlockCache` is the cache between runs,
  and `BlockTransfer` joins them end to end. A digest is an unknown function.
- **Index**. `IndexRecords` is last-writer-wins and sequence tracking, `IndexHandler` the queue with its temporary
  storage, `IndexBrowser` the two caches and the preload queue, `FileInfoOrdering` the two orders.
- **Codecs and callbacks**. `DeviceId` (with `Base32` and `Luhn`), `Framing`, `Callbacks` and `Deferred`.

`Wrappers` and `Bytes` are shared. `dafny verify dfyconfig.toml` verifies everything.

## Results that differ from what one would expect

- Hash registers are JavaScript arrays: a hash key `length` is lost or fails, a key `__proto__` is lost, a key
  `hasOwnProperty` makes the compiler throw, and a value `undefined` drops its key (`HandlebarsLimits.KeyBecomesEntry`,
  `FailingKeys`, `LostKeys`, `UndefinedDropped`).
- A program found in the table of shared programs does not say that it needs block parameters, so that a later program can
  fail to hand them on (`BlockParameters.HandsOnExactly`, `SecondNeedForgotten`).
- `stringParams` together with `trackIds` makes code generation fail on every parameter and hash pair, and either of them
  on a partial with an explicit context (`ExactCompilation.CompilesExactly`); `explicitPartialContext` swaps name and
  context of a dynamic partial without a parameter (`HandlebarsLimits.PartialContextExactly`).
- Adjacent raw mustaches are joined with `+`, so values are added unless one of the first two is text (`HandlebarsLimits.AdjacentRawValues`).
- A flush after a failed one returns normally, because the failed one dropped its chunk (`RelayProtocol.FailedFlushHides`).
- A poll that the network repeats while it is being handled can reverse the stream, because the spill file is emptied under
  a lock and the reply numbered outside it (`RelayProtocol.FinishExactly`, `RepeatedPollReverses`).
- A session whose connect fails stays in the server's map (`RelayServer.FailedConnectStays`).
- Progress of a pull leaves the unit interval from 16384 blocks on (`BlockPuller.ProgressLimitExact`), and a puller used
  twice without closing waits for both files and gives them joined (`BlockTransfer.SecondPullGives`).
- A record named `..` can stand before the parent entry of a listing after re-sorting (`IndexBrowser.CachesCoherent`).
- A preload task whose lookup fails leaves behind its job and all jobs before it (`PreloadQueue.StrandedExactly`, `Drains`).
- A directory that replaces a file leaves the block list of the file behind, so block lists depend on the order of the
  records where files do not (`IndexRecords.BlocksConvergeExactly`, `DirectoryOverFile`).
- Swapping `A` and `7` in a device id is the one swap that goes unnoticed, and not at the very end
  (`DeviceId.SwapErrorDetected`).
- Adding a progress callback after a deferred has settled unlocks its progress list (`Callbacks.AddingUnlocks`), and
  emptying a list from one of its callbacks makes the next callback added miss the pass (`Callbacks.EmptyingSkips`).
- A message with an empty body, such as a ping, is not received as it was sent (`Framing.ArrivesExactly`).

## Model

| member | source | states |
|---|---|---|
| TemplateMeaning.CompilerCorrect | a-sync-webclient/src/main/resources/web/lib/handlebars.js:2856-3210 | under all options, every template of content, comments, mustaches, blocks and partials, with parameters, hashes and sub-expressions at any depth, that keeps its hash keys and whose calls fit compiles; and if its raw output consists of strings and nulls and no partial it calls has lost its name to an explicit context, the compiled template returns the text that walking the tree gives, for all helpers, partials, contexts and data, what `trackIds` and `stringParams` tell them included |
| CodeGenerator.CompileTemplate | a-sync-webclient/src/main/resources/web/lib/handlebars.js:3246-3251 | the whole compiler, tree to function, with its table of shared programs: under all options it succeeds if and only if no partial has several parameters and every call fits; and for templates of content, comments, mustaches, blocks and partials without block parameters the result returns the text of the tree in every world |
| ExactCompilation.CompilesExactly | a-sync-webclient/src/main/resources/web/lib/handlebars.js:3144-3199 | under all options, tracking and explicit partial contexts included, a template compiles if and only if every call in it, at any depth, fits: no hash passed on has a key `hasOwnProperty`, a key `length` only takes, with nothing tracked, a boolean literal or a whole number from 0 to below 2 to the 32nd, nothing is passed on under both kinds of tracking, and no partial without a parameter has an explicit context under tracking |
| ExactCompilation.GeneratesExactly | a-sync-webclient/src/main/resources/web/lib/handlebars.js:3416-3431 | code generation for one program succeeds if and only if its own calls fit, whatever the number of its statements and the depths it uses |
| ProgramSharing.SharingInvisible | a-sync-webclient/src/main/resources/web/lib/handlebars.js:4086-4124 | for templates of content, comments, mustaches, blocks and partials without block parameters, giving equal programs one function changes no output and not whether a template compiles, although programs are compared by their opcodes alone and may have been compiled as a single statement or not |
| BlockParameters.HandsOnExactly | a-sync-webclient/src/main/resources/web/lib/handlebars.js:4126-4138 | whatever is in the table, a program hands the block parameters on to all nested programs that need them if and only if a lookup of one is reached through nested programs that are all compiled for the first time, or enclosing contexts are handed on, or every program that needs them is referred to only after the first lookup of its own |
| BlockParameters.TurnsAfresh | a-sync-webclient/src/main/resources/web/lib/handlebars.js:4086-4116 | the flag for block parameters is on after a program exactly if a lookup is reached through programs compiled for the first time |
| BlockParameters.FirstNeedSeen | a-sync-webclient/src/main/resources/web/lib/handlebars.js:4086-4116 | as long as no program in the table needs block parameters, the flag is on exactly if they are needed, and they are handed on to all that need them; a top-level program starts with an empty table |
| BlockParameters.SecondNeedForgotten | a-sync-webclient/src/main/resources/web/lib/handlebars.js:4109-4114 | in `{{#a as |x|}}{{#b}}{{x}}{{/b}}{{/a}}{{#c as |x|}}1{{#b}}{{x}}{{/b}}{{/c}}` the second inner section is not handed the block parameter that it looks up |
| BlockParameters.TurnsLikeShare | a-sync-webclient/src/main/resources/web/lib/handlebars.js:4086-4124 | these flags belong to the compiler with its table: the depths and the table are the same |
| ProgramSharing.ShareServes | a-sync-webclient/src/main/resources/web/lib/handlebars.js:4086-4124 | whatever is in the table, the function a program gets could have been compiled for it, and the depth flag is that of its opcodes |
| ProgramTable.EqualServes | a-sync-webclient/src/main/resources/web/lib/handlebars.js:2768-2792 | what serves an environment serves every one that is equal to it |
| ProgramTable.DeepExactly | a-sync-webclient/src/main/resources/web/lib/handlebars.js:2830-2842 | whether a program reaches outside its own context can be told from its opcodes and those nested in it |
| ProgramTable.WritesOnce | a-sync-webclient/src/main/resources/web/lib/handlebars.js:2844-2977 | every statement that is no decorator writes exactly once or is blank, and blank statements leave no opcode |
| StackDiscipline.GenerationSucceeds | a-sync-webclient/src/main/resources/web/lib/handlebars.js:3416-3431 | for every program whose own calls fit, blocks, partials and decorators included and under all options, no opcode pops an empty stack, and at the end both stacks, the slot count and the hash stack are empty and the source is the directly translated one |
| StackDiscipline.StepKeepsCount | a-sync-webclient/src/main/resources/web/lib/handlebars.js:4171-4255 | after every opcode the slot count is the number of non-literal entries of the compile stack |
| StackDiscipline.RunKeepsCount | a-sync-webclient/src/main/resources/web/lib/handlebars.js:3416-3431 | the slot count agrees with the compile stack after any run of opcodes |
| StackDiscipline.PopKeepsCount | a-sync-webclient/src/main/resources/web/lib/handlebars.js:4239-4255 | a pop fails exactly when both stacks are empty, and keeps the slot count in step |
| StackDiscipline.StatementWrites | a-sync-webclient/src/main/resources/web/lib/handlebars.js:2873-2977 | the opcodes of a statement write exactly its direct lines and leave the stacks as they were |
| StackDiscipline.BodyWrites | a-sync-webclient/src/main/resources/web/lib/handlebars.js:2856-2871 | the same for a sequence of statements |
| DirectCode.ResolvesPath | a-sync-webclient/src/main/resources/web/lib/handlebars.js:3788-3814 | a path of any length is resolved inline, every level reusing one temporary, for any number of live slots |
| DirectCode.ExprPushes | a-sync-webclient/src/main/resources/web/lib/handlebars.js:2979-3071 | an expression pushes exactly the one entry of its direct translation |
| DirectCode.ParamPushes | a-sync-webclient/src/main/resources/web/lib/handlebars.js:3144-3183 | a parameter pushes its value above what the tracking flags ask for |
| DirectCode.HashPushes | a-sync-webclient/src/main/resources/web/lib/handlebars.js:3073-3087 | a hash pushes its registers, and an enclosing hash is back afterwards |
| DirectCode.CallPushes | a-sync-webclient/src/main/resources/web/lib/handlebars.js:2979-3030 | a call of each of the three kinds pushes exactly its direct code |
| DirectCode.SetsUp | a-sync-webclient/src/main/resources/web/lib/handlebars.js:4313-4381 | the parameters of a call are popped off in the order in which they were written, each with its own tracking entries |
| DirectCode.InvokesHelper | a-sync-webclient/src/main/resources/web/lib/handlebars.js:3942-3954 | a helper call takes its parameters, programs and hash off the stack and nothing below them |
| DirectCode.InvokesAmbiguous | a-sync-webclient/src/main/resources/web/lib/handlebars.js:3980-3997 | the same for a call that may be a helper or a property |
| HandlebarsLimits.KeyBecomesEntry | a-sync-webclient/src/main/resources/web/lib/handlebars.js:4043-4068 | assigning a hash key gives the printed hash an entry with its value if and only if the key is none of `length`, `__proto__` and `hasOwnProperty`, and the code of the value is not the literal `undefined`: the registers are arrays, printed with their own `hasOwnProperty`, and `undefined` is left out |
| HandlebarsLimits.EntryEvaluates | a-sync-webclient/src/main/resources/web/lib/handlebars.js:4561-4578 | the keys of the object that a register evaluates to are exactly those it is printed with, in every world |
| HandlebarsLimits.UndefinedDropped | a-sync-webclient/src/main/resources/web/lib/handlebars.js:4561-4578 | `{{foo x=undefined}}` compiles unless both kinds of tracking are on, and the helper gets an empty hash in every world, or under `stringParams` one with an empty text |
| HandlebarsLimits.OneKeyCompiles | a-sync-webclient/src/main/resources/web/lib/handlebars.js:3860-3879 | a mustache with one hash pair compiles if and only if the pair fits: the exact cases for each key, value and option |
| HandlebarsLimits.FailingKeys | a-sync-webclient/src/main/resources/web/lib/handlebars.js:4561-4578 | `{{foo hasOwnProperty=1}}` and `{{foo length=x}}` do not compile under any options |
| HandlebarsLimits.LostKeys | a-sync-webclient/src/main/resources/web/lib/handlebars.js:4043-4068 | `{{foo __proto__=x}}` and `{{foo length=1}}` compile, and the helper gets an empty hash in every world |
| HandlebarsLimits.EachKeyItsOwn | a-sync-webclient/src/main/resources/web/lib/handlebars.js:3860-3879 | every key of a hash but `length` and `__proto__` has the value, id, type and context of the first pair with that key, and no other key has an entry; only array indices can be cut off, by a pair `length` |
| StackHeights.StepHeight | a-sync-webclient/src/main/resources/web/lib/handlebars.js:4313-4381 | how far an opcode raises or lowers the stacks depends on the opcode alone |
| StackHeights.BodySum | a-sync-webclient/src/main/resources/web/lib/handlebars.js:3138-3199 | with both kinds of tracking the opcodes of a program lower the stacks by one for each parameter and hash pair passed on and by three for each explicit partial context |
| HandlebarsLimits.PartialContextExactly | a-sync-webclient/src/main/resources/web/lib/handlebars.js:2918-2952 | under `explicitPartialContext` a partial compiles and is called with the name and the context that the tree has if and only if it has a parameter, or its name is static and nothing is tracked |
| HandlebarsLimits.TrackedPartialFails | a-sync-webclient/src/main/resources/web/lib/handlebars.js:4346-4360 | `{{> p}}` with an explicit context and tracking does not compile |
| HandlebarsLimits.AdjacentRawValues | a-sync-webclient/src/main/resources/web/lib/handlebars.js:3567-3623 | a template of any number of raw mustaches side by side returns the text of the tree if and only if the first or the second value is null, a string or an object that converts to one |
| HandlebarsLimits.RunIsText | a-sync-webclient/src/main/resources/web/lib/handlebars.js:3567-3623 | the same for a run of values anywhere: on its own or added to the buffer it gives the joined texts under exactly that condition, and always if the sum begins with text |
| JsValues.TotalIsText | a-sync-webclient/src/main/resources/web/lib/handlebars.js:3567-3623 | `+` over two or more primitives gives their joined texts if and only if one of the first two is a string: what numbers add up to never reads like their numerals joined |
| ExpressionMeaning.PathReusesTemporary | a-sync-webclient/src/main/resources/web/lib/handlebars.js:3788-3814 | the nested expression of a path evaluates to the null-safe, or falsy-safe, fold of lookups although every level assigns the same temporary, and no other temporary changes |
| ExpressionMeaning.ExprEvals | a-sync-webclient/src/main/resources/web/lib/handlebars.js:2979-3071 | the code of an expression evaluates to the value of the expression |
| ExpressionMeaning.HashEvals | a-sync-webclient/src/main/resources/web/lib/handlebars.js:4043-4068 | the register of a hash evaluates to the hash of the tree: of two pairs with one key the first decides |
| ExpressionMeaning.ParamEvals | a-sync-webclient/src/main/resources/web/lib/handlebars.js:3144-3183 | a parameter passes on its value, or under `stringParams` its text, and is coded as `undefined` exactly if it is that literal |
| ExpressionMeaning.ArgsTracked | a-sync-webclient/src/main/resources/web/lib/handlebars.js:4313-4381 | the options of a call hold the ids, types and contexts of the parameters and hash pairs of the tree, and nothing that is not tracked |
| ExpressionMeaning.HelperEvals | a-sync-webclient/src/main/resources/web/lib/handlebars.js:3942-3966 | a helper call invokes the helper, property or `helperMissing` that the tree names, on the values of its parameters and hash |
| ExpressionMeaning.AmbiguousEvals | a-sync-webclient/src/main/resources/web/lib/handlebars.js:3980-3997 | an ambiguous name calls what it finds if that is a function and is its value otherwise, the helper going first |
| ExpressionMeaning.CallEvals | a-sync-webclient/src/main/resources/web/lib/handlebars.js:2979-3030 | the code of any call evaluates to the result of the call |
| TemplateMeaning.HelperMatches | a-sync-webclient/src/main/resources/web/lib/handlebars.js:1109-1118 | a helper or partial that renders its programs any number of times gets from the compiled programs the texts of the tree |
| TemplateMeaning.AmbiguousBlockRuns | a-sync-webclient/src/main/resources/web/lib/handlebars.js:3651-3663 | an ambiguous block leaves in its temporary what the tree gives: the helper's result, or the section over the value |
| TemplateMeaning.SimpleBlockEvals | a-sync-webclient/src/main/resources/web/lib/handlebars.js:3634-3643 | the value of a block name that cannot be a helper is handed to `blockHelperMissing` with the programs of the block |
| TemplateMeaning.PartialEvals | a-sync-webclient/src/main/resources/web/lib/handlebars.js:4006-4036 | a partial is invoked on what its tree names, static or dynamic, with its context, indentation, hash, program and tracking, and leaves what the tree gives, unless a dynamic name is taken for the context |
| TemplateMeaning.ProgramMatches | a-sync-webclient/src/main/resources/web/lib/handlebars.js:1140-1164 | every template that serves a program, at every depth, returns the text of its part of the tree, whichever equal program it was compiled for |
| TemplateMeaning.DepthsCovered | a-sync-webclient/src/main/resources/web/lib/handlebars.js:3405-3408 | the flag for enclosing contexts covers everything nested in a program |
| TemplateMeaning.BuildSucceeds | a-sync-webclient/src/main/resources/web/lib/handlebars.js:4086-4116 | a template whose calls fit compiles with all its nested programs |
| BufferMerging.MergeRefinesAppend | a-sync-webclient/src/main/resources/web/lib/handlebars.js:3567-3623 | the merged body, with its initialiser, sums and final return, returns what appending every fragment in source order gives |
| BufferMerging.CodeGen.MergeSource | a-sync-webclient/src/main/resources/web/lib/handlebars.js:3567-3623 | one pass over the source list marks every line as the definition of runs says and declares `buffer` accordingly |
| BufferMerging.CodeGen.Visit | a-sync-webclient/src/main/resources/web/lib/handlebars.js:3574-3598 | one step of that pass keeps what is known about the open run |
| BufferMerging.CodeGen.CloseRun | a-sync-webclient/src/main/resources/web/lib/handlebars.js:3600-3616 | the run that reaches the end is returned |
| HandlebarsCompiler.Compiler.VisitProgram | a-sync-webclient/src/main/resources/web/lib/handlebars.js:2856-2871 | a program compiles exactly when no partial in it has more than one parameter, and then to the environment of its tree; the block parameters in scope are restored |
| HandlebarsCompiler.Compiler.VisitBody | a-sync-webclient/src/main/resources/web/lib/handlebars.js:2856-2866 | the statements in order, with the numbers of the nested programs running through |
| HandlebarsCompiler.Compiler.VisitChild | a-sync-webclient/src/main/resources/web/lib/handlebars.js:2830-2842 | a nested program is compiled by a compiler of its own and numbered |
| HandlebarsCompiler.Compiler.VisitStatement | a-sync-webclient/src/main/resources/web/lib/handlebars.js:2844-2854 | each kind of statement pushes its own opcodes |
| HandlebarsCompiler.Compiler.VisitBlock | a-sync-webclient/src/main/resources/web/lib/handlebars.js:2873-2907 | both programs are compiled before the call, the inverse second |
| HandlebarsCompiler.Compiler.BlockCall | a-sync-webclient/src/main/resources/web/lib/handlebars.js:2888-2906 | a block that is no definite helper call also pushes its programs and an empty hash for `blockHelperMissing` |
| HandlebarsCompiler.Compiler.VisitPartial | a-sync-webclient/src/main/resources/web/lib/handlebars.js:2918-2953 | a partial with more than one parameter is refused |
| HandlebarsCompiler.Compiler.PartialCall | a-sync-webclient/src/main/resources/web/lib/handlebars.js:2926-2952 | name, completed parameters, indentation and the final append |
| HandlebarsCompiler.Compiler.VisitCall | a-sync-webclient/src/main/resources/web/lib/handlebars.js:2979-2989 | the three kinds of call are told apart |
| HandlebarsCompiler.Compiler.SimpleCall | a-sync-webclient/src/main/resources/web/lib/handlebars.js:3007-3012 | a path that is no helper is a possible lambda |
| HandlebarsCompiler.Compiler.HelperCall | a-sync-webclient/src/main/resources/web/lib/handlebars.js:3014-3030 | known helpers are invoked by name, others with the path as fallback |
| HandlebarsCompiler.Compiler.AmbiguousCall | a-sync-webclient/src/main/resources/web/lib/handlebars.js:2991-3005 | a lone name is invoked as ambiguous |
| HandlebarsCompiler.Compiler.VisitPath | a-sync-webclient/src/main/resources/web/lib/handlebars.js:3032-3051 | block parameter, context, data or property lookup, in this order, and the depth flag |
| HandlebarsCompiler.Compiler.VisitHash | a-sync-webclient/src/main/resources/web/lib/handlebars.js:3073-3087 | values first to last, keys last to first |
| HandlebarsCompiler.Compiler.PushParam | a-sync-webclient/src/main/resources/web/lib/handlebars.js:3144-3183 | what is pushed for a parameter under each tracking flag |
| HandlebarsCompiler.Compiler.SetupParams | a-sync-webclient/src/main/resources/web/lib/handlebars.js:3185-3199 | parameters, programs and hash of a call |
| CodeGenerator.JavaScriptCompiler.PopStack | a-sync-webclient/src/main/resources/web/lib/handlebars.js:4239-4255 | pops the inline stack first; a popped non-literal of the compile stack frees its slot |
| CodeGenerator.JavaScriptCompiler.PopTrackedValue | a-sync-webclient/src/main/resources/web/lib/handlebars.js:4043-4056 | a value with the tracking entries under it |
| CodeGenerator.JavaScriptCompiler.Replace | a-sync-webclient/src/main/resources/web/lib/handlebars.js:4171-4208 | replaces the top of the inline stack, naming the first free temporary unless it is a literal; fails when nothing is inline |
| CodeGenerator.JavaScriptCompiler.ResolveParts | a-sync-webclient/src/main/resources/web/lib/handlebars.js:3788-3814 | a path part by part |
| CodeGenerator.JavaScriptCompiler.FlushInlineStack | a-sync-webclient/src/main/resources/web/lib/handlebars.js:4220-4234 | every inline entry that is no literal gets a temporary of its own, in order |
| CodeGenerator.JavaScriptCompiler.PushLine | a-sync-webclient/src/main/resources/web/lib/handlebars.js:4160-4169 | pending content goes in front of a new line |
| CodeGenerator.JavaScriptCompiler.OpenHash | a-sync-webclient/src/main/resources/web/lib/handlebars.js:3860-3865 | a new register; the open one is kept |
| CodeGenerator.JavaScriptCompiler.AssignKey | a-sync-webclient/src/main/resources/web/lib/handlebars.js:4043-4068 | the top of the stack under a key, with its tracking entries |
| CodeGenerator.JavaScriptCompiler.CloseHash | a-sync-webclient/src/main/resources/web/lib/handlebars.js:3866-3879 | the register is pushed and the enclosing one comes back |
| CodeGenerator.JavaScriptCompiler.PushEmptyHash | a-sync-webclient/src/main/resources/web/lib/handlebars.js:3850-3858 | an empty hash with empty tracking entries |
| CodeGenerator.JavaScriptCompiler.PopArguments | a-sync-webclient/src/main/resources/web/lib/handlebars.js:4346-4360 | the parameters, last one first |
| CodeGenerator.JavaScriptCompiler.SetupCall | a-sync-webclient/src/main/resources/web/lib/handlebars.js:4313-4381 | the parameters and options of a call |
| CodeGenerator.JavaScriptCompiler.InvokeHelperCall | a-sync-webclient/src/main/resources/web/lib/handlebars.js:3942-3954 | a helper call |
| CodeGenerator.JavaScriptCompiler.InvokeAmbiguousCall | a-sync-webclient/src/main/resources/web/lib/handlebars.js:3980-3997 | an ambiguous call, remembering the helper's name |
| CodeGenerator.JavaScriptCompiler.InvokePartialCall | a-sync-webclient/src/main/resources/web/lib/handlebars.js:4006-4035 | a partial call |
| CodeGenerator.JavaScriptCompiler.BlockValueCall | a-sync-webclient/src/main/resources/web/lib/handlebars.js:3634-3643 | a block over a value |
| CodeGenerator.JavaScriptCompiler.AmbiguousBlockValueCall | a-sync-webclient/src/main/resources/web/lib/handlebars.js:3651-3663 | a block over an ambiguous value, run unless the helper was found |
| CodeGenerator.JavaScriptCompiler.AppendValue | a-sync-webclient/src/main/resources/web/lib/handlebars.js:3690-3704 | appending, inline or from a temporary, in simple and other programs |
| CodeGenerator.JavaScriptCompiler.Execute | a-sync-webclient/src/main/resources/web/lib/handlebars.js:3416-3422 | one opcode; every live temporary stays declared |
| CodeGenerator.JavaScriptCompiler.CompileOpcodes | a-sync-webclient/src/main/resources/web/lib/handlebars.js:3379-3512 | all opcodes of an environment, the final content, the check that nothing is left, and the merged body |
| CodeGenerator.CompileEnvironment | a-sync-webclient/src/main/resources/web/lib/handlebars.js:4086-4116 | nested programs first, each with a compiler of its own unless an equal one is in the table, the depth flags going outwards |
| CodeGenerator.CompileChild | a-sync-webclient/src/main/resources/web/lib/handlebars.js:4090-4115 | an equal program is used again, and then only its own depth flag is looked at |
| CodeGenerator.Context.MatchExistingProgram | a-sync-webclient/src/main/resources/web/lib/handlebars.js:4117-4124 | the first environment in the table that is equal |
| CodeGenerator.StepKeeps | a-sync-webclient/src/main/resources/web/lib/handlebars.js:4171-4216 | after every opcode all temporaries in use are declared, and a simple program has no line to merge |
| RelayProtocol.PeerToRelaySafe | a-sync-http-relay/src/main/java/it/anyplace/sync/httprelay/client/HttpRelayConnection.java:113-162 | with any number of sessions, posts lost, repeated and reordered, failed flushes and the flush inside `close`, the bytes written to the relay socket are a prefix of the bytes written to the client stream, and no byte taken from the relay socket is lost on the server |
| RelayProtocol.FlushDelivers | a-sync-http-relay/src/main/java/it/anyplace/sync/httprelay/client/HttpRelayConnection.java:126-156 | when a flush that posted something returns without an exception, everything written so far is on the relay socket; an empty flush always returns, and everything is there if and only if the server has counted all chunks, which it has if the last flush that posted returned |
| RelayProtocol.FailedFlushHides | a-sync-http-relay/src/main/java/it/anyplace/sync/httprelay/client/HttpRelayConnection.java:126-156 | after a failed flush the next one finds nothing and returns, with nothing delivered |
| RelayProtocol.ReadsWhatIsNumbered | a-sync-http-relay/src/main/java/it/anyplace/sync/httprelay/client/HttpRelayConnection.java:165-217 | in every reachable state what `read` returned is a prefix of the numbered data up to the peer's count, and all data popped has been numbered once or is being handled |
| RelayProtocol.FinishExactly | a-sync-http-relay/src/main/java/it/anyplace/sync/httprelay/server/RelaySessionConnection.java:107-135 | whichever poll is numbered next, the bytes stay in order if and only if what it found can be exchanged with what the older polls found, and what is numbered so far stays a prefix of what was taken if and only if what it found begins the older data and itself |
| RelayProtocol.OutOfTurn | a-sync-http-relay/src/main/java/it/anyplace/sync/httprelay/server/RelaySessionConnection.java:107-135 | the same in every reachable state of every run that was in order so far, up to the bytes that the peer has once it takes the reply in |
| RelayProtocol.RelayToPeerSafe | a-sync-http-relay/src/main/java/it/anyplace/sync/httprelay/client/HttpRelayConnection.java:165-217 | in every run in which each poll numbered can be exchanged with the older ones still being handled, what `read` returned is a prefix of what was taken from the relay socket |
| RelayProtocol.UnrepeatedPollsSafe | a-sync-http-relay/src/main/java/it/anyplace/sync/httprelay/client/HttpRelayConnection.java:165-189 | if the network handles no poll twice the same holds with nothing else asked for: polls are then always handled one at a time |
| RelayProtocol.HandledAlone | a-sync-http-relay/src/main/java/it/anyplace/sync/httprelay/server/RelaySessionConnection.java:127-135 | a poll that is not repeated is handled alone |
| RelayProtocol.RepeatedPollReverses | a-sync-http-relay/src/main/java/it/anyplace/sync/httprelay/server/RelaySessionConnection.java:107-135 | a run that gets there: a poll repeated while it is handled, numbered in the wrong order, keeps the prefix property if and only if the two pieces begin alike |
| RelayProtocol.ActKeeps | a-sync-http-relay/src/main/java/it/anyplace/sync/httprelay/client/HttpRelayConnection.java:113-162 | every action keeps the chunk numbering, the order of the bytes written and the conservation of the bytes taken |
| RelayProtocol.DeliverKeeps | a-sync-http-relay/src/main/java/it/anyplace/sync/httprelay/server/RelaySessionConnection.java:70-86 | a post that arrives late, again or after a failure writes the next chunk or nothing; a socket that fails leaves part of the next chunk and closes the session |
| RelayProtocol.ActKeepsInput | a-sync-http-relay/src/main/java/it/anyplace/sync/httprelay/client/HttpRelayConnection.java:165-217 | every action keeps that the peer has taken in the numbered replies up to its own count |
| RelayProtocol.ActCounts | a-sync-http-relay/src/main/java/it/anyplace/sync/httprelay/client/HttpRelayConnection.java:165-189 | every action keeps the counts of polls sent, handled and accepted in line |
| RelayServer.HandlesOwnSession | a-sync-http-relay/src/main/java/it/anyplace/sync/httprelay/server/HttpRelayServer.java:132-172 | a message changes no session but its own, and every session keeps all bytes it has taken |
| RelayServer.FailedConnectStays | a-sync-http-relay/src/main/java/it/anyplace/sync/httprelay/server/HttpRelayServer.java:70-84 | a session whose connect failed stays in the map, unknown to its peer, and answers with errors until it is closed |
| RelayServer.HttpRelayServer.HandleMessage | a-sync-http-relay/src/main/java/it/anyplace/sync/httprelay/server/HttpRelayServer.java:132-165 | the dispatch of all four messages; an exception becomes an error reply and a closed session is dropped |
| RelayServer.HttpRelayServer.OpenConnection | a-sync-http-relay/src/main/java/it/anyplace/sync/httprelay/server/HttpRelayServer.java:70-84 | a new session under a new id, in the map before it is connected, and still there when that fails |
| RelayServer.HttpRelayServer.DropIfClosed | a-sync-http-relay/src/main/java/it/anyplace/sync/httprelay/server/HttpRelayServer.java:76-81 | a session that has closed leaves the map |
| RelaySession.PollConserves | a-sync-http-relay/src/main/java/it/anyplace/sync/httprelay/server/RelaySessionConnection.java:149-163 | a whole poll conserves the bytes taken, and its data follow everything popped before |
| RelaySession.ClosedRefuses | a-sync-http-relay/src/main/java/it/anyplace/sync/httprelay/server/RelaySessionConnection.java:230-260 | a session that has closed takes nothing more, gives nothing more and loses nothing |
| RelaySession.RelaySessionConnection.Send | a-sync-http-relay/src/main/java/it/anyplace/sync/httprelay/server/RelaySessionConnection.java:70-86 | data are written only under the next sequence number; empty data do not advance it; a failing socket closes the session |
| RelaySession.RelaySessionConnection.GetTempFile | a-sync-http-relay/src/main/java/it/anyplace/sync/httprelay/server/RelaySessionConnection.java:88-95 | asking for the spill file creates it |
| RelaySession.RelaySessionConnection.HasData | a-sync-http-relay/src/main/java/it/anyplace/sync/httprelay/server/RelaySessionConnection.java:143-147 | whether the spill file holds anything |
| RelaySession.RelaySessionConnection.PopTempFile | a-sync-http-relay/src/main/java/it/anyplace/sync/httprelay/server/RelaySessionConnection.java:107-125 | the spill file is emptied and its contents returned |
| RelaySession.RelaySessionConnection.GetData | a-sync-http-relay/src/main/java/it/anyplace/sync/httprelay/server/RelaySessionConnection.java:127-135 | the popped data under the next number, or an exception on a closed session |
| RelaySession.RelaySessionConnection.WaitForDataAndGet | a-sync-http-relay/src/main/java/it/anyplace/sync/httprelay/server/RelaySessionConnection.java:149-163 | a poll answers with data, possibly none after its wait, or with the closing message when the session closed meanwhile |
| RelaySession.RelaySessionConnection.Append | a-sync-http-relay/src/main/java/it/anyplace/sync/httprelay/server/RelaySessionConnection.java:186-191 | received bytes are appended to the spill file |
| RelaySession.RelaySessionConnection.ReadLoop | a-sync-http-relay/src/main/java/it/anyplace/sync/httprelay/server/RelaySessionConnection.java:174-207 | the reader appends what it reads until the stream ends, fails or the session is closed |
| RelayClient.PolledArrives | a-sync-http-relay/src/main/java/it/anyplace/sync/httprelay/client/HttpRelayConnection.java:168-187 | an accepted poll adds exactly its data to what has arrived; any other reply changes nothing |
| RelayClient.ReadKeepsArrived | a-sync-http-relay/src/main/java/it/anyplace/sync/httprelay/client/HttpRelayConnection.java:196-217 | a read, also one that was waiting when the connection closed, returns the next byte and loses none, whatever bytes the data hold, and ends only at the end marker, which is told apart by identity |
| RelayClient.WaitingReadEnds | a-sync-http-relay/src/main/java/it/anyplace/sync/httprelay/client/HttpRelayConnection.java:196-217 | a read that waits while the connection closes gets what had arrived and then the end, while one that begins later raises an exception |
| RelayClient.ClosingKeepsArrived | a-sync-http-relay/src/main/java/it/anyplace/sync/httprelay/client/HttpRelayConnection.java:334-362 | closing loses nothing that has arrived |
| RelayClient.HttpRelayConnection.WriteByte | a-sync-http-relay/src/main/java/it/anyplace/sync/httprelay/client/HttpRelayConnection.java:113-117 | a byte is buffered, unless the connection is closed |
| RelayClient.HttpRelayConnection.WriteBytes | a-sync-http-relay/src/main/java/it/anyplace/sync/httprelay/client/HttpRelayConnection.java:119-123 | the same for part of an array |
| RelayClient.HttpRelayConnection.FlushStream | a-sync-http-relay/src/main/java/it/anyplace/sync/httprelay/client/HttpRelayConnection.java:125-156 | a non-empty buffer is posted under the next number and emptied, also when the post fails |
| RelayClient.HttpRelayConnection.PollLoop | a-sync-http-relay/src/main/java/it/anyplace/sync/httprelay/client/HttpRelayConnection.java:165-189 | polls until closed or until a reply is not the next one |
| RelayClient.HttpRelayConnection.Read | a-sync-http-relay/src/main/java/it/anyplace/sync/httprelay/client/HttpRelayConnection.java:195-217 | raises an exception on a closed connection, and otherwise returns the next byte, waits, or ends at the end marker |
| RelayClient.HttpRelayConnection.Await | a-sync-http-relay/src/main/java/it/anyplace/sync/httprelay/client/HttpRelayConnection.java:201-215 | the loop that a read waits in, whatever happens to the connection |
| RelayClient.HttpRelayConnection.Close | a-sync-http-relay/src/main/java/it/anyplace/sync/httprelay/client/HttpRelayConnection.java:334-362 | once: flush, closing message if that went through, end marker |
| BlockTransfer.TransferComplete | a-sync-bep/src/main/java/it/anyplace/sync/bep/BlockPuller.java:84-106 | once every request has been answered by the sender, in any order and among any other responses, the pull gives exactly the stream that was cut, if no data offered has the digest of a block without being it |
| BlockTransfer.CompletedIsContent | a-sync-bep/src/main/java/it/anyplace/sync/bep/BlockPuller.java:153-162 | whatever responses arrive, a pull is complete exactly when nothing is missing, and then it gives the stream |
| BlockTransfer.SecondPullCompletes | a-sync-bep/src/main/java/it/anyplace/sync/bep/BlockPuller.java:179-211 | a second pull with one puller is complete if and only if every digest on either list is in the cache or has arrived since: the first list is not cleared and its blocks are missing again |
| BlockTransfer.ReuseCompletes | a-sync-bep/src/main/java/it/anyplace/sync/bep/BlockPuller.java:179-211 | once the second file is there, that is if and only if every digest of the first is in the cache, on the second list too, or happens to arrive |
| BlockTransfer.SecondPullGives | a-sync-bep/src/main/java/it/anyplace/sync/bep/BlockPuller.java:153-162 | a second pull that is complete gives the first stream followed by the second, so the second alone if and only if the list was empty when it started |
| BlockTransfer.ClosedIsFresh | a-sync-bep/src/main/java/it/anyplace/sync/bep/BlockPuller.java:165-176 | after closing, a puller pulls like a fresh one |
| BlockPuller.HandledKeeps | a-sync-bep/src/main/java/it/anyplace/sync/bep/BlockPuller.java:84-106 | whatever arrives, acquired and missing digests partition those of the file, each block stored has its digest, and nothing acquired is lost or becomes missing |
| BlockPuller.StartedConsistent | a-sync-bep/src/main/java/it/anyplace/sync/bep/BlockPuller.java:179-193 | a fresh pull starts with that partition |
| BlockPuller.RequestsCover | a-sync-bep/src/main/java/it/anyplace/sync/bep/BlockPuller.java:195-209 | every missing block is asked for with its own offset and size |
| BlockPuller.RequestsAreForBlocks | a-sync-bep/src/main/java/it/anyplace/sync/bep/BlockPuller.java:195-209 | nothing else is asked for |
| BlockPuller.CompletedResult | a-sync-bep/src/main/java/it/anyplace/sync/bep/BlockPuller.java:153-162 | a completed pull is a stream of blocks with exactly the digests of the list, in order |
| BlockPuller.ProgressBelowLimit | a-sync-bep/src/main/java/it/anyplace/sync/bep/BlockPuller.java:110-121 | below 16384 digests progress lies in the unit interval, grows with every block, and is 1 exactly when nothing is missing |
| BlockPuller.ProgressLimitExact | a-sync-bep/src/main/java/it/anyplace/sync/bep/BlockPuller.java:110-121 | progress lies in the unit interval at every stage of a pull if and only if the file has fewer than 16384 digests: the products are 32 bits wide |
| BlockPuller.BlockPuller.PullBlocks | a-sync-bep/src/main/java/it/anyplace/sync/bep/BlockPuller.java:77-216 | the cache is asked for every digest listed, the rest is requested; a request that cannot be sent clears everything |
| BlockPuller.BlockPuller.TakeCached | a-sync-bep/src/main/java/it/anyplace/sync/bep/BlockPuller.java:187-193 | what the cache has moves from missing to acquired |
| BlockPuller.BlockPuller.SendRequests | a-sync-bep/src/main/java/it/anyplace/sync/bep/BlockPuller.java:195-209 | one request per missing block, in order, each id remembered |
| BlockPuller.BlockPuller.HandleResponse | a-sync-bep/src/main/java/it/anyplace/sync/bep/BlockPuller.java:84-106 | one response; the cache gets its data even if it is not needed |
| BlockPuller.BlockPuller.GetProgress | a-sync-bep/src/main/java/it/anyplace/sync/bep/BlockPuller.java:119-121 | below 16384 digests a share between 0 and 1 that is 1 exactly when nothing is missing |
| BlockPuller.BlockPuller.GetInputStream | a-sync-bep/src/main/java/it/anyplace/sync/bep/BlockPuller.java:153-162 | the blocks in the order of the list, or an exception |
| BlockPusher.CutCovers | a-sync-bep/src/main/java/it/anyplace/sync/bep/BlockPusher.java:428-454 | the blocks of a cut, joined, are the stream |
| BlockPusher.CutContiguous | a-sync-bep/src/main/java/it/anyplace/sync/bep/BlockPusher.java:428-454 | blocks follow each other without gap or overlap, up to the end of the stream |
| BlockPusher.CutInside | a-sync-bep/src/main/java/it/anyplace/sync/bep/BlockPusher.java:428-454 | every block is a non-empty piece of at most 128 KiB with its own digest |
| BlockPusher.CutAnswered | a-sync-bep/src/main/java/it/anyplace/sync/bep/BlockPusher.java:472-482 | every block of a cut is answered with its own bytes |
| BlockPusher.DataSource.ProcessStream | a-sync-bep/src/main/java/it/anyplace/sync/bep/BlockPusher.java:428-454 | for every pattern of short reads a cut whose sizes are those of the reads and sum to the length |
| BlockPusher.DataSource.GetSize | a-sync-bep/src/main/java/it/anyplace/sync/bep/BlockPusher.java:456-461 | the length, cutting the stream only if it has to |
| BlockPusher.DataSource.GetBlocks | a-sync-bep/src/main/java/it/anyplace/sync/bep/BlockPusher.java:463-468 | the cut, made once |
| BlockPusher.DataSource.GetHashes | a-sync-bep/src/main/java/it/anyplace/sync/bep/BlockPusher.java:484-494 | the digests of the cut |
| BlockPusher.DataSource.GetBlock | a-sync-bep/src/main/java/it/anyplace/sync/bep/BlockPusher.java:472-482 | the bytes asked for, if they exist and have the digest asked for |
| BlockPusher.FileUpload.HandleRequest | a-sync-bep/src/main/java/it/anyplace/sync/bep/BlockPusher.java:139-182 | requests for other files are ignored; an answer that could be sent counts as sent, everything else as an error |
| Blocks.HashTellsBlocks | a-sync-core/src/main/java/it/anyplace/sync/core/utils/BlockUtils.java:30-37 | two files have one hash exactly when their blocks have the same digests in the same order |
| Blocks.JoinedInjective | a-sync-core/src/main/java/it/anyplace/sync/core/utils/BlockUtils.java:30-37 | joined digests can be taken apart again |
| FileBlockCache.PullsApart | a-sync-core/src/main/java/it/anyplace/sync/core/cache/FileBlockCache.java:90-121 | a checked read returns data with the digest asked for, removes a bad file, and does not touch others |
| FileBlockCache.CleanupSparesNewest | a-sync-core/src/main/java/it/anyplace/sync/core/cache/FileBlockCache.java:65-82 | a cleanup removes no file newer than one it keeps, and never the newest |
| FileBlockCache.StoredComesBack | a-sync-core/src/main/java/it/anyplace/sync/core/cache/FileBlockCache.java:132-157 | data stored comes back, unless a bad file of its digest was there; reading that removes it, and stored again the data come back |
| FileBlockCache.FileBlockCache.PullFile | a-sync-core/src/main/java/it/anyplace/sync/core/cache/FileBlockCache.java:90-121 | the file's data, or nothing and the file deleted if it cannot be read or does not match |
| FileBlockCache.FileBlockCache.PullBlock | a-sync-core/src/main/java/it/anyplace/sync/core/cache/FileBlockCache.java:84-88 | a checked read |
| FileBlockCache.FileBlockCache.PullData | a-sync-core/src/main/java/it/anyplace/sync/core/cache/FileBlockCache.java:159-162 | an unchecked read |
| FileBlockCache.FileBlockCache.PushBlock | a-sync-core/src/main/java/it/anyplace/sync/core/cache/FileBlockCache.java:60-63 | stores data under its digest |
| FileBlockCache.FileBlockCache.RunJob | a-sync-core/src/main/java/it/anyplace/sync/core/cache/FileBlockCache.java:137-151 | an existing file is not overwritten; a new one survives the cleanup it may cause |
| FileBlockCache.FileBlockCache.RunCleanup | a-sync-core/src/main/java/it/anyplace/sync/core/cache/FileBlockCache.java:65-82 | over the limit the older half goes |
| DeviceId.DeviceIdRoundTrip | a-sync-core/src/main/java/it/anyplace/sync/core/security/KeystoreHandler.java:123-141 | for every hash of 32 bytes the printed id has the right syntax and parsing it gives the hash back |
| DeviceId.ValidExactly | a-sync-core/src/main/java/it/anyplace/sync/core/security/KeystoreHandler.java:143-145 | validation accepts an id if and only if its characters, its four check characters and its spare bits are right, and if and only if it is the printed id of some hash |
| DeviceId.SingleErrorDetected | a-sync-core/src/main/java/it/anyplace/sync/core/security/KeystoreHandler.java:143-170 | changing any one character of a valid id, to whatever else, makes it invalid |
| DeviceId.SwapErrorDetected | a-sync-core/src/main/java/it/anyplace/sync/core/security/KeystoreHandler.java:143-170 | swapping two different neighbouring data characters of a part leaves a valid id valid if and only if they are `A` and `7` and do not stand at the very end |
| DeviceId.PrintLayout | a-sync-core/src/main/java/it/anyplace/sync/core/security/KeystoreHandler.java:123-133 | where data, check characters and dashes of a printed id stand |
| DeviceId.ParseIs | a-sync-core/src/main/java/it/anyplace/sync/core/security/KeystoreHandler.java:135-141 | parsing looks neither at the check characters nor at the spare bits |
| DeviceId.LayoutUnique | a-sync-core/src/main/java/it/anyplace/sync/core/security/KeystoreHandler.java:123-133 | an id is determined by its data |
| Luhn.GenerateLuhn32Checksum | a-sync-core/src/main/java/it/anyplace/sync/core/security/KeystoreHandler.java:154-170 | the loop with its alternating factor computes the check character, and fails on characters outside the alphabet |
| Luhn.CheckCompletes | a-sync-core/src/main/java/it/anyplace/sync/core/security/KeystoreHandler.java:154-170 | the check value is the only one that makes the weighted sum a multiple of 32 |
| Luhn.ChangeDetected | a-sync-core/src/main/java/it/anyplace/sync/core/security/KeystoreHandler.java:154-170 | changing one value changes the check value |
| Luhn.SwapDetected | a-sync-core/src/main/java/it/anyplace/sync/core/security/KeystoreHandler.java:154-170 | swapping different neighbours keeps the check value if and only if they are 0 and 31 |
| Luhn.DoubledPermutes | a-sync-core/src/main/java/it/anyplace/sync/core/security/KeystoreHandler.java:161-165 | doubling with the carry added permutes the 32 values |
| Base32.Base32RoundTrip | a-sync-core/src/main/java/it/anyplace/sync/core/security/KeystoreHandler.java:125-139 | base 32 (section 6 of RFC 4648) decodes what it encodes, for inputs of every length |
| Base32.DigitsCanonical | a-sync-core/src/main/java/it/anyplace/sync/core/security/KeystoreHandler.java:135-141 | digits come back from their bytes if and only if the bits left over are zero |
| IndexRecords.LatestWins | a-sync-bep/src/main/java/it/anyplace/sync/bep/IndexHandler.java:239-262 | after any run of pushes the record of a path is the first among those with the latest time, and there is one exactly if a storable one was pushed |
| IndexRecords.Converges | a-sync-bep/src/main/java/it/anyplace/sync/bep/IndexHandler.java:239-262 | two orders of the same records, repeats included, end in the same files when times per path are distinct, and with the same blocks wherever a file is kept |
| IndexRecords.BlocksOfLastFile | a-sync-repository/src/main/java/it/anyplace/sync/repository/repo/SqlRepository.java:437-464 | after any run of pushes the block list of a path is that of the last file stored for it, even if a directory was stored later |
| IndexRecords.BlocksConvergeExactly | a-sync-repository/src/main/java/it/anyplace/sync/repository/repo/SqlRepository.java:437-464 | the block list of a path is the same for all orders of the same records if and only if a file is kept for it or no file was pushed for it |
| IndexRecords.KeptDigestsConverge | a-sync-repository/src/main/java/it/anyplace/sync/repository/repo/SqlRepository.java:437-464 | without looking at the records: if digests tell block texts apart, two orders end with the same block digests for every file kept |
| IndexRecords.DirectoryOverFile | a-sync-repository/src/main/java/it/anyplace/sync/repository/repo/SqlRepository.java:437-464 | a file and a later directory of one path: the files converge, the block lists do not |
| IndexRecords.TiesGoToTheFirst | a-sync-bep/src/main/java/it/anyplace/sync/bep/IndexHandler.java:239-262 | for two records of a path the order matters if and only if they differ and have the same time |
| IndexRecords.PushedIs | a-sync-bep/src/main/java/it/anyplace/sync/bep/IndexHandler.java:165-199 | a push changes the index only by a storable record that is new or later |
| IndexRecords.PushKeepsBlocks | a-sync-bep/src/main/java/it/anyplace/sync/bep/IndexHandler.java:165-199 | every file in the index has blocks with its size and hash |
| IndexRecords.SequencesTracked | a-sync-bep/src/main/java/it/anyplace/sync/bep/IndexHandler.java:201-236 | in every run the local sequence is the highest of 0 and all sequences received after the index was announced, and the maximum the highest announced |
| IndexRecords.SequencesAreMaxima | a-sync-bep/src/main/java/it/anyplace/sync/bep/IndexHandler.java:201-236 | once an index is known neither order nor repetition of what follows matters |
| IndexRecords.SequencesGrow | a-sync-bep/src/main/java/it/anyplace/sync/bep/IndexHandler.java:201-236 | both numbers only grow |
| IndexRecords.AcquiredExactly | a-sync-bep/src/main/java/it/anyplace/sync/bep/IndexHandler.java:112-122 | an index counts as acquired if and only if every shared folder was announced and has received what was announced |
| IndexHandler.SpillingIsInvisible | a-sync-bep/src/main/java/it/anyplace/sync/bep/IndexHandler.java:403-468 | in every interleaving of arrivals and announcements with the steps of the processor, record by record, the index is that of direct processing, but for the records of the message being processed, and an empty queue leaves no temporary data |
| IndexHandler.ActAhead | a-sync-bep/src/main/java/it/anyplace/sync/bep/IndexHandler.java:403-508 | each such step is an announcement, a message that is done, or nothing, as seen from direct processing |
| IndexHandler.AnnouncedBefore | a-sync-bep/src/main/java/it/anyplace/sync/bep/IndexHandler.java:201-236 | an announcement in the middle of a message is as good as one before it |
| IndexHandler.EnqueuedLast | a-sync-bep/src/main/java/it/anyplace/sync/bep/IndexHandler.java:403-435 | a message that arrives is the last one waiting, wherever it is kept |
| IndexHandler.DequeuedFirst | a-sync-bep/src/main/java/it/anyplace/sync/bep/IndexHandler.java:440-468 | the next job is the oldest message, and its temporary data go |
| IndexHandler.ApplyIsHandledAll | a-sync-bep/src/main/java/it/anyplace/sync/bep/IndexHandler.java:142-157 | applying events one by one is the run that the sequence results speak about |
| IndexHandler.IndexHandler.AddRecord | a-sync-bep/src/main/java/it/anyplace/sync/bep/IndexHandler.java:239-262 | stored if new or later, and then posted |
| IndexHandler.IndexHandler.PushRecord | a-sync-bep/src/main/java/it/anyplace/sync/bep/IndexHandler.java:165-199 | files, directories and unsupported kinds |
| IndexHandler.IndexHandler.UpdateIndexInfo | a-sync-bep/src/main/java/it/anyplace/sync/bep/IndexHandler.java:201-236 | an index becomes known only by its id; numbers only rise |
| IndexHandler.IndexHandler.HandleClusterConfig | a-sync-bep/src/main/java/it/anyplace/sync/bep/IndexHandler.java:142-157 | all announcements of a cluster configuration |
| IndexHandler.IndexHandler.IsRemoteIndexAcquired | a-sync-bep/src/main/java/it/anyplace/sync/bep/IndexHandler.java:112-122 | the loop over the shared folders |
| IndexHandler.IndexHandler.ProcessMessage | a-sync-bep/src/main/java/it/anyplace/sync/bep/IndexHandler.java:469-508 | records first, the highest sequence last |
| IndexHandler.IndexHandler.HandleIndexMessage | a-sync-bep/src/main/java/it/anyplace/sync/bep/IndexHandler.java:382-435 | a message behind others goes to temporary storage |
| IndexHandler.IndexHandler.RunNext | a-sync-bep/src/main/java/it/anyplace/sync/bep/IndexHandler.java:440-468 | the next message is taken from memory or storage, processed, and counted as queued until then |
| IndexHandler.IndexHandler.TakeNext | a-sync-bep/src/main/java/it/anyplace/sync/bep/IndexHandler.java:461-467 | the oldest message; temporary data are removed |
| IndexBrowser.CachesCoherent | a-sync-bep/src/main/java/it/anyplace/sync/bep/IndexBrowser.java:55-103 | in every run of changes, listings, lookups and orderings each cached listing is a fresh one and each cached info that of the index, all the time, if and only if no step sorts a cached listing newest first that has a record `..` later than its parent entry |
| IndexBrowser.ActGood | a-sync-bep/src/main/java/it/anyplace/sync/bep/IndexBrowser.java:95-103 | any action keeps the caches agreeing with the index if and only if it is not such a sort |
| IndexBrowser.ResortFresh | a-sync-bep/src/main/java/it/anyplace/sync/bep/IndexBrowser.java:244-254 | re-sorting a fresh listing gives a fresh one if and only if the new order puts no file before the parent entry |
| IndexBrowser.FreshUnique | a-sync-bep/src/main/java/it/anyplace/sync/bep/IndexBrowser.java:265-279 | there is one fresh listing of a path, so a cached one is what a load would give |
| IndexBrowser.AddGood | a-sync-bep/src/main/java/it/anyplace/sync/bep/IndexBrowser.java:95-103 | a record stored in the folder empties both caches, and no other push changes what they show |
| IndexBrowser.PushPosts | a-sync-bep/src/main/java/it/anyplace/sync/bep/IndexHandler.java:239-262 | the index changes exactly when a record is posted, and then at its key alone |
| IndexBrowser.LookupCoherent | a-sync-bep/src/main/java/it/anyplace/sync/bep/IndexBrowser.java:298-308 | a lookup succeeds exactly for files that are not deleted and gives the record of the index |
| IndexBrowser.ListingCoherent | a-sync-bep/src/main/java/it/anyplace/sync/bep/IndexBrowser.java:260-279 | a listing, cached or loaded, is fresh and keeps the caches coherent |
| IndexBrowser.IndexBrowser.HandleIndexChanged | a-sync-bep/src/main/java/it/anyplace/sync/bep/IndexBrowser.java:95-103 | a change in the folder empties the caches and triggers a preload |
| IndexBrowser.IndexBrowser.PreloadFileInfoForCurrentPath | a-sync-bep/src/main/java/it/anyplace/sync/bep/IndexBrowser.java:146-155 | a waiting path moves to the end, a new one comes with a task |
| IndexBrowser.IndexBrowser.DoListFiles | a-sync-bep/src/main/java/it/anyplace/sync/bep/IndexBrowser.java:265-279 | a load: query, infos cached, sorted, parent entry first |
| IndexBrowser.IndexBrowser.ListFiles | a-sync-bep/src/main/java/it/anyplace/sync/bep/IndexBrowser.java:256-263 | cached or loaded, always fresh |
| IndexBrowser.IndexBrowser.GetFileInfoByAbsolutePath | a-sync-bep/src/main/java/it/anyplace/sync/bep/IndexBrowser.java:298-308 | cached or loaded, always the record of the index |
| IndexBrowser.IndexBrowser.SetOrdering | a-sync-bep/src/main/java/it/anyplace/sync/bep/IndexBrowser.java:244-254 | all cached listings sorted again, and fresh if and only if none has its parent entry overtaken |
| IndexBrowser.IndexBrowser.NavigateToAbsolutePath | a-sync-bep/src/main/java/it/anyplace/sync/bep/IndexBrowser.java:339-351 | only to the root or an existing directory, and then a preload is triggered |
| IndexBrowser.IndexBrowser.BeginPreload | a-sync-bep/src/main/java/it/anyplace/sync/bep/IndexBrowser.java:158-164 | a task takes the last job |
| IndexBrowser.IndexBrowser.Preloading | a-sync-bep/src/main/java/it/anyplace/sync/bep/IndexBrowser.java:166-177 | the lookups of a task, which fail exactly if the path or its parent is gone |
| IndexBrowser.IndexBrowser.EndPreload | a-sync-bep/src/main/java/it/anyplace/sync/bep/IndexBrowser.java:178-189 | a task comes back while jobs are left |
| PreloadQueue.TasksCoverJobs | a-sync-bep/src/main/java/it/anyplace/sync/bep/IndexBrowser.java:146-195 | as long as no lookup fails there are at least as many tasks as jobs |
| PreloadQueue.Drains | a-sync-bep/src/main/java/it/anyplace/sync/bep/IndexBrowser.java:146-226 | without new jobs every schedule ends, whatever lookups fail in it, and the job set is then empty if and only if there was no job at its start or there were more tasks than lookups that failed |
| PreloadQueue.StrandedExactly | a-sync-bep/src/main/java/it/anyplace/sync/bep/IndexBrowser.java:146-195 | whichever way the tasks are scheduled, if the lookups that fail are those of paths that are gone, the jobs left in the end are exactly those up to the last one that is gone; so none is left if and only if there was no job, or some task and no path that is gone |
| PreloadQueue.StepKeeps | a-sync-bep/src/main/java/it/anyplace/sync/bep/IndexBrowser.java:158-195 | a step takes jobs away or leaves them all; a task goes only when its lookup fails or no job is left |
| PreloadQueue.FailureStrands | a-sync-bep/src/main/java/it/anyplace/sync/bep/IndexBrowser.java:146-195 | an instance: a failed lookup in the last task strands its job, and asking for a waiting path again does not help |
| FileInfoOrdering.TotalOrder | a-sync-core/src/main/java/it/anyplace/sync/core/utils/FileInfoOrdering.java:32-54 | both orders are total, antisymmetric and transitive, and only files of one path compare equal |
| FileInfoOrdering.SortUnique | a-sync-core/src/main/java/it/anyplace/sync/core/utils/FileInfoOrdering.java:32-54 | sorting files with distinct paths forgets the order it starts from |
| FileInfoOrdering.ResortExactly | a-sync-core/src/main/java/it/anyplace/sync/core/utils/FileInfoOrdering.java:32-54 | sorting a list that starts with the parent entry keeps it in front if and only if no file named like it is later, newest first |
| Callbacks.EachRunsOnce | a-sync-webclient/src/main/resources/web/lib/jquery.js:3219-3366 | whatever callbacks add, remove, fire, lock or disable while they run, no entry runs twice for a value, when a pass ends every entry then in the list has run, and a list at rest that was not disabled has given every value it accepted a pass of its own |
| Callbacks.EachFireItsPass | a-sync-webclient/src/main/resources/web/lib/jquery.js:3219-3366 | in every run passes begin in the order in which values were fired, and none without one; what has not begun yet is what the queue holds; and the number of passes from the first callback on is what the log counts |
| Callbacks.TurnKeeps | a-sync-webclient/src/main/resources/web/lib/jquery.js:3219-3261 | a turn runs only an entry that has not run for the value |
| Callbacks.RemoveKeeps | a-sync-webclient/src/main/resources/web/lib/jquery.js:3298-3311 | removing moves the firing index so that nothing is skipped or repeated |
| Callbacks.AddKeeps | a-sync-webclient/src/main/resources/web/lib/jquery.js:3267-3295 | adding to a list that remembers a value runs the new entries and no old one |
| Callbacks.EmptyingSkips | a-sync-webclient/src/main/resources/web/lib/jquery.js:3322-3327 | after emptying a list from one of its callbacks the next one added runs in this pass if and only if the firing index is back at the front |
| Callbacks.AddingUnlocks | a-sync-webclient/src/main/resources/web/lib/jquery.js:3219-3226 | a locked list stays locked through an addition if and only if it may fire only once or remembers nothing |
| Callbacks.DisabledForGood | a-sync-webclient/src/main/resources/web/lib/jquery.js:3332-3336 | a disabled list stays so whatever is done to it: nothing is added or fired and nothing runs again |
| Callbacks.EmptiedForGood | a-sync-webclient/src/main/resources/web/lib/jquery.js:3322-3327 | what is in a list when it is emptied never runs again, whatever is done to the list afterwards |
| Callbacks.CallbackList.Add | a-sync-webclient/src/main/resources/web/lib/jquery.js:3267-3295 | functions are pushed, not twice in a unique list; a list that remembers fires again from its old end |
| Callbacks.CallbackList.Remove | a-sync-webclient/src/main/resources/web/lib/jquery.js:3298-3311 | all entries of the function go |
| Callbacks.CallbackList.FireWith | a-sync-webclient/src/main/resources/web/lib/jquery.js:3356-3367 | ignored when locked, queued while firing |
| Callbacks.CallbackList.Resume | a-sync-webclient/src/main/resources/web/lib/jquery.js:3227-3240 | the two loops, up to the next callback |
| Callbacks.CallbackList.Return | a-sync-webclient/src/main/resources/web/lib/jquery.js:3231-3238 | a callback returns; false may break the pass off |
| Callbacks.CallbackList.Lock | a-sync-webclient/src/main/resources/web/lib/jquery.js:3344-3350 | locks, and disables a list that remembers nothing |
| Callbacks.RemoveAll | a-sync-webclient/src/main/resources/web/lib/jquery.js:3301-3309 | the search goes on from where the last match was cut out |
| Deferred.SettlesOnce | a-sync-webclient/src/main/resources/web/lib/jquery.js:3386-3477 | once settled, the state stays whatever happens |
| Deferred.EachCallbackOnce | a-sync-webclient/src/main/resources/web/lib/jquery.js:3386-3477 | only the list that the state names ever runs, each callback once and in the order of additions; when everything has returned it has run all of them, whether added before, during or after |
| Deferred.LoopSettled | a-sync-webclient/src/main/resources/web/lib/jquery.js:3449-3457 | the state is set first, then the other list disabled, then progress locked, then the user's callbacks run |
| Deferred.FireKept | a-sync-webclient/src/main/resources/web/lib/jquery.js:3459-3464 | the first to fire decides; later attempts change nothing |
| Deferred.StartKept | a-sync-webclient/src/main/resources/web/lib/jquery.js:3386-3457 | a new deferred holds its own three callbacks in each settling list |
| Framing.FramingRoundTrip | a-sync-bep/src/main/java/it/anyplace/sync/bep/BlockExchangeConnectionHandler.java:346-399 | any sequence of frames with headers of 1 to 32767 bytes and bodies of 1 to 2147483647, with any number of zero shorts before them and zero ints before their bodies, is received exactly |
| Framing.ArrivesExactly | a-sync-bep/src/main/java/it/anyplace/sync/bep/BlockExchangeConnectionHandler.java:346-399 | a sent frame arrives whatever follows it if and only if header and body have such lengths: an empty body never does |
| Framing.WireReceived | a-sync-bep/src/main/java/it/anyplace/sync/bep/BlockExchangeConnectionHandler.java:346-366 | one frame with filling, and the rest left alone |
| Framing.IntRoundTrip | a-sync-bep/src/main/java/it/anyplace/sync/bep/BlockExchangeConnectionHandler.java:397 | a written int is read modulo 2 to the 32nd, signed |
| Framing.ShortRoundTrip | a-sync-bep/src/main/java/it/anyplace/sync/bep/BlockExchangeConnectionHandler.java:395 | a written short is read modulo 2 to the 16th, signed |
| Framing.Sender.SendMessage | a-sync-bep/src/main/java/it/anyplace/sync/bep/BlockExchangeConnectionHandler.java:380-399 | a frame is written behind what is there |
| Framing.Receiver.ReceiveMessage | a-sync-bep/src/main/java/it/anyplace/sync/bep/BlockExchangeConnectionHandler.java:346-366 | the two skip loops and the length checks |

## Left out

Template compiler:

- CompilerCorrect: leaves out decorators and the values of block parameters, which `CompilesExactly` and `BlockParameters` cover; helpers and partials act without side effects and finish after a bounded number of renderings. A partial that cannot be found gives a value like any other.
- CompileTemplate: its meaning part leaves out the same.
- SharingInvisible: leaves out block parameters, which sharing can lose (see `SecondNeedForgotten`).
- CompilesExactly: number literals are integers, so a fraction, which the key `length` would refuse, cannot be written.
- AdjacentRawValues: numbers are integers without rounding, written in decimal.
- Printing and parsing of the generated text: code is kept as terms, so quoting, aliases and the lexer do not occur.
- CompileEnvironment: the functions of the table are kept as terms in the places that refer to them, not under their numbers.
- `strict`, `assumeObjects`, `compat`, `knownHelpersOnly`, `preventIndent` and source maps.
- The entries of a hash are evaluated in the order in which they were assigned; JavaScript puts array indices first, which changes no value here.
- Exceptions are one outcome, without their messages; a literal in callee position arrives as the path of its own text.

Relay:

- Sockets, HTTP, clocks and threads are steps and parameters; each synchronized region is one step, and session ids are never used twice; a write to a socket that has taken all bytes succeeds, and a connect fails before it has any stream.
- RepeatedPollReverses: the lost update of an unsynchronized counter is not modelled, only the order of two increments.
- Sequence numbers are unbounded; renaming the spill file always succeeds.

Block transfer:

- SHA-256 and base 16: a digest is an unknown function whose text holds no comma.
- Directory, file access and modification times are parameters of the cache; the listing by age is given sorted.
- Index updates, version vectors and the completion event of an upload.

Index:

- The SQL repository is a map; a query is answered in any order. Times are unbounded integers.
- CachesCoherent: a load that overlaps a change of the index is not modelled, nor are expiry and `clearIndex`, which posts no event.
- Folder labels, the notifications after a message and the logging arithmetic, which divides by the number of records.
- `PathUtils.normalizePath` is an unknown function.

Codecs and callbacks:

- Certificates, key stores and TLS; the protobuf and LZ4 formats inside a frame, and the types of messages.
- EachRunsOnce: callbacks do not throw, and a firing list is not emptied (see `EmptyingSkips`).
- `then`, `pipe`, `always`, `when` and the contexts that callbacks are called with.
- The rest of jQuery, the discovery, configuration, command-line and web code.
