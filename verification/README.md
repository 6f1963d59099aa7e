# Lemon and the parser it emits

A Dafny model of the LALR(1) parser generator `tool/alemon/lemon.c` and of the table-driven parser
template `tool/alemon/lempar.c`, from an already read grammar to a finished parse, with proofs that
the generated parser is safe, sound, complete for conflict-free grammars, and independent of how
its states are numbered and its tables are packed.

## How the model is laid out

- **Reference notions.** `Grammars` (grammars, parse trees, sentences), `Derivations` (rightmost
  derivations; a sentence is exactly what one derives from the start symbol).
- **Automaton and lookaheads.** `ByteSets` (sets as arrays of bytes), `FirstSets` and `FirstMeaning`
  (lambda flags, first sets, and what they mean), `Automata` (items, closures, states, links),
  `Configlists`, `ItemSort`, `AutomatonSteps`, `StateBuilder` (class `Lemon`, the mutually recursive construction of the
  states, with the hash table of kernels), `Canonical`, `FollowSets`, `Lookaheads` (bounds on the
  follow sets), `RightForms` and `ExactLookaheads` (what the follow sets mean).
- **Action tables.** `MergeSort` (the list sort), `Contests` (conflict resolution), `Actions`,
  `Compression`, `Defaults` (which rule becomes the default), `Fallbacks`, `ActTabs` (class `ActTab`,
  the packed table), `Report`, `Emit`, `ParserTables`, `Lookups`.
- **Driver.** `Driver` (the steps as functions on values, and class `Parser`, which works on the
  stack array and is proved to perform exactly those steps), `Machines` (an automaton, its action
  lists, a numbering and tables that belong together), `StackInvariants`, `Steps`, `Soundness`,
  `OneCall`, `ErrorReports`, `Walks`, `Completeness`, `Overflow`, `Unambiguous`, `ValidPrefixes`,
  `Renumbering`, `Clients` (a whole input fed to the parser object).
- **The whole program.** `Generate` runs the phases of `main` from `FindFirstSets` on; its result satisfies
  the hypotheses of the theorems about the driver. `Products` names what it hands over,
  `EarlyAccepts` says when a generated parser accepts before the end of the input, and `OneRules`,
  `Instances`, `Precedences` and `Wildcards` work out every parser that can be generated for some small
  grammars, which `Inputs` shows to be possible inputs of `Generate`.
- **Support.** `HashTables` (the growing chained tables), `Preprocess` (conditional text as one pass
  over characters) and `ConditionalText` (the same by its structure of nested conditions).

The records that the C code links into lists are sequences; the fields of configuration records
(follow set, forward and backward links) are maps from configurations to values, updated in the
order of the source. The library `qsort` is a method of which only "sorted permutation" is known,
so every result holds for every order of ties. The last key that `actioncmp` compares for a shift is
an arbitrary function, since the source reads a field that a shift does not have.

## Where the code and its comments disagree

The model follows the code.

- The lambda flag means "has an empty rule of its own", not "generates the empty string" as the
  comment says: the scan at `tool/alemon/lemon.c:640-648` stops at every nonterminal.
  `LambdaExactIff` says for which grammars the two agree and `LambdaMisses` gives one where they
  differ.
- A rule that has become the default of a state is not always found where it was before compression:
  `MovedPreservedIff` gives the exact condition on the list before compression, for tokens with and
  without a fallback, and `ShiftsAfter` says when compression turns such a reduce into a shift.
  `WildcardSteals` and `FallbackShifts` are well-formed grammars for which every compressed parser
  decides differently.
- An accept can come before the end of the input, while the token of the call has not been used, but
  only in a compressed parser: `CallAcceptsIff` says exactly when, `PlainParserWaits` that it never
  happens without compression, `AcceptedAtEnd` what follows then for whole inputs. `EarlyAccept` is
  the grammar for which every compressed parser does it. So soundness in general is about the tokens
  shifted; `ShiftedAreSupplied` relates them to the tokens supplied.
- The template's comment (`tool/alemon/lempar.c:735-737`) promises that errors are reported again
  after three shifted tokens; the test `yyerrcnt<0` makes it four (`ReportedIffRecovered`), and
  `ThreeAreNotEnough` shows an error after three shifts that is not reported.
- Because of the lambda flag a follow set can miss a terminal: `NullableRejected` gives a grammar and
  a sentence of it in which every parser generated for the grammar finds an error.
- The search for room in the action table (`tool/alemon/lemon.c:523-529`) does not take every offset that
  fits: an unused slot right in front of the offset carries the mark -1, which the test in line 539
  takes for a lookahead. `FindIndex` says exactly which offset is taken, `FitsButRefused` gives a table
  and a set that is put further to the right than necessary.
- The list sort loses elements from 2^30 elements on (`MSort`), the length of a rule is kept only
  below 256 symbols (`RuleLengthKeptIff`), and the search along fallback tokens ends exactly when
  no token comes back to itself (`AcyclicIffNoCycle`).

The theorems about whole parsers ask for a grammar about which no error has been reported
(`WfGrammar`), with rules shorter than 256 symbols, no fallback cycle and lists below 2^30 elements.

## Model

| member | source | states |
|---|---|---|
| Derivations.SentenceIffDerived | tool/alemon/lemon.c:684-737 | what the start symbol generates: parse trees and rightmost derivations define the same sentences |
| Derivations.ReduceExtends | tool/alemon/lempar.c:516-587 | a reduce undoes one rightmost step: from "the stack derives w" to "the stack after the reduce derives w by one more leading rule" |
| Derivations.RulesDeriveTree | tool/alemon/lempar.c:516-587 | the rules of a parse tree, root first and rightmost child first, are a rightmost derivation of its yield |
| MergeSort.MergeAssociative | tool/alemon/lemon.c:1579-1615 | merging is associative for every total preorder, which is why the bins may be merged in counter order |
| MergeSort.Carry | tool/alemon/lemon.c:1641-1649 | one element into the bins keeps the binary counter (bin i is empty or holds 2^i elements) and the sorted contents, below 2^30 elements |
| MergeSort.MSort | tool/alemon/lemon.c:1631-1655 | the in-place bin sort equals the reference sort for every list shorter than 2^30, and loses elements for every longer one |
| MergeSort.MergeStable | tool/alemon/lemon.c:1579-1615 | merging keeps the order of tied elements |
| MergeSort.SortIsStableSort | tool/alemon/lemon.c:1617-1655 | the sort returns a sorted permutation with all ties in original order |
| ByteSets.SetAdd | tool/alemon/lemon.c:4099-4107 | the array of bytes gains exactly the element, and the flag says exactly whether it is new |
| ByteSets.SetUnion | tool/alemon/lemon.c:4110-4124 | the loop leaves the union in the first array, even if both are the same one, and the flag says exactly whether the second had something new |
| FirstSets.FindLambdas | tool/alemon/lemon.c:631-652 | terminates with exactly the symbols that have an empty rule of their own |
| FirstSets.FindFirstSets | tool/alemon/lemon.c:621-677 | terminates with the least solution of the first-set equations |
| FirstMeaning.LambdaExactIff | tool/alemon/lemon.c:615-652 | the flags mean "generates the empty string" if and only if every rule made of flagged nonterminals belongs to a flagged nonterminal |
| FirstMeaning.LambdaMisses | tool/alemon/lemon.c:615-652 | a grammar with a nonterminal that generates the empty string and is not flagged |
| FirstMeaning.FirstSound | tool/alemon/lemon.c:655-677 | every terminal in a first set begins a form derived from the nonterminal |
| FirstMeaning.FirstExact | tool/alemon/lemon.c:655-677 | under the condition of LambdaExactIff the first sets are exactly those terminals |
| Configlists.Closure | tool/alemon/lemon.c:1194-1237 | the least closed set of items over the kernel, each with exactly the seeds of its sources and exactly the links to items spawned in front of a lambda rest |
| ItemSort.SortItems | tool/alemon/lemon.c:1240-1251 | the same items in strictly increasing order |
| Automata.OrderedUnique | tool/alemon/lemon.c:743-783 | sorting makes the list of a kernel canonical: equal sets of items have equal lists |
| Automata.ItemOrigin | tool/alemon/lemon.c:1194-1237 | an item of a closure is in the kernel or spawned by an item of the closure |
| AutomatonSteps.WithStatePartial | tool/alemon/lemon.c:770-783 | adding a state keeps every invariant of the collection under construction |
| AutomatonSteps.BackLinksPartial | tool/alemon/lemon.c:754-767 | adding the back links of a kernel that already has a state keeps every invariant |
| AutomatonSteps.WithActionPartial | tool/alemon/lemon.c:845-854 | adding a shift keeps every invariant |
| StateBuilder.Lemon.CollectBasis | tool/alemon/lemon.c:828-839 | the kernel over a symbol is exactly the items with the dot moved over it, each with exactly its back links |
| StateBuilder.Lemon.FindState | tool/alemon/lemon.c:4638-4652 | the hash table returns the state with the kernel, and none only if no state has it |
| StateBuilder.Lemon.StoreState | tool/alemon/lemon.c:775-779 | the new state is appended and its kernel is in the table, which lists the states in the order of their numbers |
| StateBuilder.Lemon.CopyBackLinks | tool/alemon/lemon.c:757-764 | when a kernel already has a state its back links all arrive there and nothing is lost |
| StateBuilder.Lemon.GetState | tool/alemon/lemon.c:743-783 | the state of the kernel, old or new, with all its successors; terminates because a new state uses up one of finitely many kernels |
| StateBuilder.Lemon.ShiftOver | tool/alemon/lemon.c:822-855 | the transition of a state over one symbol is complete: goto state, a shift for every symbol it stands for, back links |
| StateBuilder.Lemon.BuildShifts | tool/alemon/lemon.c:806-856 | every symbol after a dot of the state gets its transition |
| StateBuilder.Lemon.FindStates | tool/alemon/lemon.c:684-737 | terminates with the complete collection: states are closures of pairwise distinct kernels, state 0 starts, each other state is reached from an earlier one, all transitions and links present, shift lists bounded |
| Canonical.CollectionIsCanonical | tool/alemon/lemon.c:684-856 | the kernels of the states are exactly those of the canonical LR(0) collection, each once |
| FollowSets.FindLinks | tool/alemon/lemon.c:861-890 | no propagation link is lost or invented |
| FollowSets.Push | tool/alemon/lemon.c:917-924 | a configuration's whole set goes along all its links; the targets that changed become incomplete |
| FollowSets.FindFollowSets | tool/alemon/lemon.c:897-928 | terminates with the least follow sets that contain the seeds and flow along every link |
| FollowSets.FollowIsReachability | tool/alemon/lemon.c:897-928 | a follow set is exactly the terminals seeded on some configuration from which a chain of links leads there |
| Lookaheads.LookaheadsWithin | tool/alemon/lemon.c:897-928 | lookaheads stay within every solution of the FOLLOW equations of the grammar |
| Lookaheads.StartRulesWaitForEnd | tool/alemon/lemon.c:897-928 | an item of a start rule has no lookahead but the end of the input |
| ExactLookaheads.LookaheadFollows | tool/alemon/lemon.c:897-928 | if all nonterminals in rules derive terminals, every lookahead of an item comes next in some right sentential form whose viable prefix leads to the state and ends with the item |
| ExactLookaheads.LookaheadsAreExact | tool/alemon/lemon.c:684-928 | if moreover the lambda flags are exact, the lookaheads of an item are precisely the tokens that come after its left-hand side in such a form |
| Contests.ResolveKeepsOne | tool/alemon/lemon.c:1018-1076 | of two live actions exactly one survives unchanged, and an error is counted exactly when the other is marked a conflict |
| Contests.ResolveByPrecedence | tool/alemon/lemon.c:1018-1076 | the declared precedences of the token and of the rules' precedence symbols decide, then the declared associativity of the token, with the marks of the source; everything else is a counted conflict that the first action survives |
| Contests.ResolveConflicts | tool/alemon/lemon.c:975-988 | for groups of any size the double loop is a contest on each symbol: every action in turn takes the place of the best so far or loses to it, and is marked accordingly; the count is the number of actions marked as conflicts |
| Contests.ContestIsFair | tool/alemon/lemon.c:975-988 | the contests leave exactly one live action on every symbol that had one, unchanged |
| Contests.Duel | tool/alemon/lemon.c:975-988 | where a symbol has two actions, in a list of any length, they meet each other only |
| Actions.ShiftAgainstReduce | tool/alemon/lemon.c:1030-1049 | a shift against a reduce, in terms of the precedence of the token, that of the rule's precedence symbol and the associativity of the token: which of them is in the table, and how the other is marked |
| Actions.ReduceAgainstReduce | tool/alemon/lemon.c:1050-1062 | of two reduces the one of higher precedence is in the table, and without a decision the rule declared first, with a counted conflict |
| Actions.FindActions | tool/alemon/lemon.c:934-1003 | every live action is a shift, a reduce by a complete item on its follow set or the accept; what is left of a state's actions is decided by the contests on each symbol in the order shifts first, then reduces by rule number; if no precedence is declared, a count of zero means that no two actions met on a symbol |
| Actions.ConflictFreeKeepsAll | tool/alemon/lemon.c:934-1003 | without two actions on a symbol the live actions are exactly the automaton's |
| Precedences.TighterFirst | tool/alemon/lemon.c:1030-1049 | for PLUS and the stronger TIMES, both left associative, every generated parser, compressed or not, shifts TIMES behind e PLUS e and reduces in all other cases |
| Compression.FindBest | tool/alemon/lemon.c:3961-3982 | the rule chosen is a most frequent reduce of the state, its first reduce comes before those of all rules as frequent, and none is chosen only if there is no reduce |
| Compression.CompressTables | tool/alemon/lemon.c:3950-4004 | the reduces by the first most frequent rule give way to one default, everything else stays, no symbol gets two live actions |
| Defaults.DefaultByToken | tool/alemon/lemon.c:3961-3982 | no rule is reduced by on more tokens than the default rule, and one that is reduced by on as many starts with a greater token |
| Defaults.DefaultChosen | tool/alemon/lemon.c:3950-4004 | the same for the default of every compressed state of every generated parser |
| Compression.OthersPreserved | tool/alemon/lemon.c:3950-4004 | every action but a reduce by the default rule is still the one found |
| Compression.DefaultFoundIff | tool/alemon/lempar.c:375-404 | any token finds the default if and only if neither it, nor a fallback of it, nor at the end the wildcard, had an action by anything else before compression |
| Compression.MovedPreservedIff | tool/alemon/lemon.c:3983-4003 | a reduce that became the default is still found if and only if no fallback of the token has an action by anything else and no wildcard action by anything else is met at the end of the chain |
| Compression.ErrorBecomesDefault | tool/alemon/lemon.c:3950-4004 | a missing action becomes the default reduce |
| Compression.ShiftsAfter | tool/alemon/lempar.c:375-386 | compression loses no shift, and makes one exactly where the moved reduce hid a fallback that shifts |
| Instances.WildcardSteals | tool/alemon/lempar.c:388-404 | a well-formed grammar for which every compressed parser reduces by another rule, found through the wildcard |
| Instances.FallbackShifts | tool/alemon/lempar.c:375-386 | a well-formed grammar for which every compressed parser shifts where it reduced before compression |
| Fallbacks.AcyclicIffNoCycle | tool/alemon/lempar.c:375-386 | the recursion along fallback tokens ends from every token if and only if no token comes back to itself |
| ActTabs.ActTab.Action | tool/alemon/lemon.c:466-490 | the pair joins the current transaction set and the table stays as it was |
| ActTabs.ActTab.FindIndex | tool/alemon/lemon.c:530-562 | the leftmost offset at which the same set is, or it fits without an unused slot right in front of the offset, else the end of the table |
| ActTabs.FitsButRefused | tool/alemon/lemon.c:538-543 | a table in which an earlier offset would fit and is not taken |
| ActTabs.ActTab.Insert | tool/alemon/lemon.c:499-574 | returns an offset at which exactly the set's lookaheads are found, with its actions, and every set inserted before is still found exactly; it is the leftmost one that the source takes |
| ActTabs.OldSetHolds | tool/alemon/lemon.c:499-574 | writing a set into unused or identical slots at an offset no other set has leaves every other set exact |
| Report.DefaultIsEffect | tool/alemon/lemon.c:4042-4054 | the recorded default is the code of the state's live default action, else of an error |
| Report.EntriesMembers | tool/alemon/lemon.c:3636-3654 | the transactions of a state are exactly its live actions on symbols of the kind |
| Report.PermutationCovers | tool/alemon/lemon.c:4056-4059 | n distinct numbers below n are all numbers below n, so every state gets a number |
| Report.Renumber | tool/alemon/lemon.c:4057-4059 | the new numbers are a bijection that fixes state 0 |
| Generate.ResortStates | tool/alemon/lemon.c:4030-4060 | counts and defaults of every state, the numbering, and the order of the states behind state 0 by their counts of nonterminal and token actions |
| Generate.OrderStates | tool/alemon/lemon.c:4012-4024 | state 0 stays first; behind it the states with more nonterminal actions come first and, of those with as many, the ones with more token actions |
| Generate.BuildAx | tool/alemon/lemon.c:3615-3631 | the sets of all states, each exactly once, the largest first |
| Emit.PackSets | tool/alemon/lemon.c:3633-3659 | every nonempty transaction set of every state is in the table at its offset, no offset below the two minima |
| Emit.EmitRows | tool/alemon/lemon.c:3694-3739 | the table is cut right after the last state with transactions, which drops no offset, and the use-default mark stands exactly for states without |
| Emit.ReportTable | tool/alemon/lemon.c:3609-3765 | the emitted tables: each row finds exactly its state's transactions, the use-default mark is no real offset, defaults, rule table |
| Emit.RuleLengthKeptIff | tool/alemon/lempar.c:503-506 | the rule table keeps the length of a rule if and only if it is below 256 |
| Lookups.ShiftLookup | tool/alemon/lempar.c:360-408 | for every state and terminal the lookup through the emitted tables returns the code of the decision: own action, fallback, wildcard, default |
| Lookups.TokenFound | tool/alemon/lempar.c:370-406 | the code returned is that of the first token among the lookahead and its fallbacks that has an action |
| Lookups.WildcardFound | tool/alemon/lempar.c:388-399 | if none of them has one, the code of the wildcard's action is returned, be it a shift or a reduce |
| Lookups.DefaultReturned | tool/alemon/lempar.c:404 | else that of the default action, and that of an error if there is none |
| Wildcards.ForeignTokenShifted | tool/alemon/lempar.c:388-399 | for s ::= W T with wildcard W every generated parser shifts a token that no rule knows, to the state behind W |
| Lookups.ReduceLookup | tool/alemon/lempar.c:418-438 | for every state and nonterminal likewise |
| Lookups.GotoFound | tool/alemon/lempar.c:418-438 | the goto returned is the code of the nonterminal's own action, else of the default, else of an error |
| Machines.TableIsSane | tool/alemon/lemon.c:934-1003 | after resolution and after compression every live action is justified by the automaton, no goto is missing and state 0 accepts |
| Machines.DecideJustified | tool/alemon/lempar.c:360-408 | a decision is a move over the token as it is read, a reduce by a complete item, or an error; never an accept |
| Driver.Parser.PopParserStack | tool/alemon/lempar.c:310-326 | pops exactly one level and returns its symbol |
| Driver.Parser.StackOverflow | tool/alemon/lempar.c:443-457 | empties the stack |
| Driver.Parser.Shift | tool/alemon/lempar.c:462-498 | pushes one level inside the array, or empties a full stack |
| Driver.Parser.Reduce | tool/alemon/lempar.c:516-587 | performs the reduce step, by the push in place or through the shift |
| Driver.Parser.PopForError | tool/alemon/lempar.c:754-762 | pops as the recovery step says |
| Driver.Parser.Fail | tool/alemon/lempar.c:763-766 | throws the token away and empties the stack |
| Driver.Parser.ShiftError | tool/alemon/lempar.c:767-771 | pushes the error symbol, or empties a full stack |
| Driver.Parser.HandleError | tool/alemon/lempar.c:740-774 | performs the error step: counter, flag, discard, fail or push of the error symbol |
| Driver.Parser.Turn | tool/alemon/lempar.c:701-798 | performs exactly one step on stack, counter, flags and pending token |
| Driver.Parser.Parse | tool/alemon/lempar.c:664-801 | one call is the run of steps from the state the previous call left, never outside the stack or the tables |
| StackInvariants.ItemOnStack | tool/alemon/lempar.c:563-567 | the part of a rule in front of the dot of any item on the stack is on the stack, and the item began on the level below it |
| StackInvariants.GotoHits | tool/alemon/lempar.c:567-587 | the goto after a reduce is always there: an accept for the start symbol, only on the bottom level, and a shift for every other |
| Steps.StepShape | tool/alemon/lempar.c:701-713 | a turn shifts, reduces by a complete item of the top state, or recovers; the accept branch of the loop is never taken |
| Steps.ReduceShape | tool/alemon/lempar.c:516-587 | a reduce finds its right-hand side on top, never pops the bottom, and accepts exactly when the start rule's right-hand side is all there is |
| Steps.PopStopsAtTopmost | tool/alemon/lempar.c:754-762 | recovery stops at the topmost state that can shift the error symbol |
| Steps.ErrorShape | tool/alemon/lempar.c:743-774 | what recovery leaves is again a path of the automaton |
| Soundness.StepSafe | tool/alemon/lempar.c:701-799 | every turn keeps the stack a path from the start state within its depth and touches nothing outside |
| Soundness.CallIsSafe | tool/alemon/lempar.c:664-801 | from a safe state the parser object may be called with any token |
| Soundness.SessionSafe | tool/alemon/lempar.c:664-801 | every configuration that any sequence of calls reaches is safe, through errors, overflows and accepts |
| Soundness.StepTraced | tool/alemon/lempar.c:701-799 | without errors the stack always derives the tokens shifted, by the reductions so far in reverse |
| Soundness.AcceptIsSound | tool/alemon/lempar.c:629-643 | whenever an accept happens without an error since initialisation, the tokens shifted, as they were read, are a sentence and the reductions its rightmost derivation in reverse |
| Soundness.AcceptIsExactlySound | tool/alemon/lempar.c:629-643 | without fallbacks and wildcard the shifted tokens themselves are the sentence |
| ValidPrefixes.ShiftedIsPrefix | tool/alemon/lempar.c:701-799 | as long as there is no error the tokens shifted, as they were read, are the beginning of a sentence, if every nonterminal derives terminals |
| Clients.FeedAll | tool/alemon/lempar.c:664-801 | an input fed call by call to a new parser object leaves it in exactly the configuration of the session, with its stack, error counter and log |
| OneCall.OneCallOk | tool/alemon/lempar.c:701-799 | one call takes the error branch at most twice, never shifts token 0, and at its end has shifted its token once, discarded it once, or emptied the stack |
| OneCall.ShiftedAreSupplied | tool/alemon/lempar.c:664-801 | without errors the tokens shifted are exactly those supplied; after an accept the last one was only looked at |
| EarlyAccepts.PlainWaits | tool/alemon/lempar.c:360-408 | without compression a start rule is reduced by at the end of the input only, whatever fallbacks and wildcard there are |
| EarlyAccepts.CompressedWaits | tool/alemon/lemon.c:3983-4003 | with compression a start rule is reduced by on another token if and only if it is the default and the token finds the default |
| EarlyAccepts.DecisionReducesStart | tool/alemon/lempar.c:360-408 | the same for every state of every generated parser, compressed or not |
| EarlyAccepts.TurnAccepts | tool/alemon/lempar.c:563-587 | a turn on another token than the end of the input accepts if and only if the top state is such a one |
| EarlyAccepts.CallAcceptsIff | tool/alemon/lempar.c:664-801 | a call with another token accepts if and only if it comes to such a state |
| EarlyAccepts.PlainParserWaits | tool/alemon/lemon.c:1504-1507 | a parser generated without compression has no such state |
| EarlyAccepts.AcceptedAtEnd | tool/alemon/lempar.c:629-643 | for a parser without such states an input accepted without an error is a sentence, as read, followed by token 0 |
| OneRules.SingleTablesAreEmitted | tool/alemon/lemon.c:3609-3765 | the tables written down for the grammar s ::= A meet the contract of the table report for every parser generated for it |
| OneRules.EarlyAccept | tool/alemon/lempar.c:563-587 | every compressed parser for s ::= A, however packed and numbered, accepts A A in the call with the second A |
| ErrorReports.ReportedIffRecovered | tool/alemon/lempar.c:735-742 | in every run a syntax error is reported if and only if it is the first or at least four tokens were shifted since the previous one |
| OneRules.ThreeAreNotEnough | tool/alemon/lempar.c:735-742 | a grammar for which every parser passes over an error in silence after three shifted tokens |
| Walks.WalkIsSession | tool/alemon/lempar.c:664-801 | a run composed across calls is what the sequence of calls does, for all large enough bounds on their length |
| Completeness.ConflictFreeIsFaithful | tool/alemon/lemon.c:934-1003 | without conflicts and substitutes every action of the automaton is the parser's decision, compressed or not |
| Completeness.LeastFollowFlows | tool/alemon/lemon.c:897-928 | the computed follow sets contain the seeds and flow along every link |
| Completeness.Expected | tool/alemon/lemon.c:1208-1232 | an item of the closure has in its follow set the token that comes after what it is to derive |
| Completeness.ParseTree | tool/alemon/lempar.c:664-801 | from any state with an item that expects a symbol, parsing a tree of that symbol reads its yield, reduces by its rules and pushes one level |
| Completeness.ParseForest | tool/alemon/lempar.c:664-801 | likewise for the rest of a rule, ending with the complete item and its lookahead |
| Completeness.SentenceAccepted | tool/alemon/lempar.c:664-801 | every sentence followed by token 0 is accepted without an error, by the reductions of its parse tree, if the stack is deep enough |
| Products.GeneratedIsSetting | tool/alemon/lemon.c:1408-1534 | every generated parser without conflicts and substitutes meets the hypotheses of completeness |
| Instances.NullableRejected | tool/alemon/lemon.c:640-648 | a grammar with a nullable nonterminal without an empty rule of its own, and a sentence that every parser for it finds an error in |
| Overflow.DepthIsExact | tool/alemon/lempar.c:462-498 | the depth computed from a parse tree is exact: a parser with less overflows in the middle of the sentence, any other accepts it |
| Unambiguous.RecognisesExactly | tool/alemon/lempar.c:664-801 | a conflict-free parser with a deep enough stack accepts exactly the sentences |
| Unambiguous.OneTree | tool/alemon/lemon.c:934-1003 | a grammar without conflicts has at most one parse tree for any input |
| Renumbering.RenamedState | tool/alemon/lemon.c:4030-4060 | renaming between two numberings is a bijection that fixes state 0 |
| Renumbering.StepCommutes | tool/alemon/lemon.c:4030-4060 | parsers that differ in numbering and packing make corresponding steps |
| Renumbering.SessionCommutes | tool/alemon/lemon.c:4030-4060 | and so for every sequence of tokens: same shifts, reductions, accepts, errors |
| Generate.Generate | tool/alemon/lemon.c:1408-1534 | the phases in order produce tables of a usable parser for every grammar, and of a complete one when there are no conflicts, which without precedences a reported count of zero guarantees |
| Inputs.ExamplesAreInputs | tool/alemon/lemon.c:1408-1534 | the grammars of the worked examples meet what Generate asks, so parsers for them are made |
| HashTables.StateKeysCompatible | tool/alemon/lemon.c:4495-4521 | kernels that compare equal hash alike, with wrap-around |
| HashTables.ConfigKeysCompatible | tool/alemon/lemon.c:4484-4492 | configurations that compare equal hash alike |
| HashTables.HashTable.Find | tool/alemon/lemon.c:4638-4652 | finds the data of the equal key if and only if there is one |
| HashTables.HashTable.Grow | tool/alemon/lemon.c:4598-4623 | doubling and rehashing keep the pairs and their order |
| HashTables.HashTable.Insert | tool/alemon/lemon.c:4578-4634 | refuses a key that is there, else appends the pair, growing when full |
| HashTables.HashTable.Clear | tool/alemon/lemon.c:4799-4808 | leaves an empty, usable table |
| HashTables.HashTable.ArrayOf | tool/alemon/lemon.c:4657-4668 | the data in the order of insertion |
| Preprocess.PreprocessInput | tool/alemon/lemon.c:2414-2458 | in place: a character outside directives survives if and only if all conditions around it hold, all other characters but newlines become spaces, newlines never move; fails exactly when a false condition is left open |
| Preprocess.ExcludedIffFalse | tool/alemon/lemon.c:2414-2458 | the single counter of the source is zero exactly when the whole stack of conditions holds |
| Preprocess.Condition | tool/alemon/lemon.c:2436-2445 | the text is excluded exactly when the macro named next is missing for %ifdef or defined for %ifndef |
| ConditionalText.MacroNamed | tool/alemon/lemon.c:2436-2437 | the macro of a directive is the whole first word behind it |
| ConditionalText.ConditionMeans | tool/alemon/lemon.c:2431-2445 | an %ifdef holds exactly when the name that follows is in the macro list, an %ifndef when it is not |
| ConditionalText.TextProcessed | tool/alemon/lemon.c:2414-2458 | for every text of lines and nested conditions the pass leaves what the structure says: a line is kept if and only if all conditions around it hold, directives and other lines are blanked, no condition is left open |
| ConditionalText.Example | tool/alemon/lemon.c:2414-2458 | a text with one condition, processed to its exact result for two macro lists |

## Left out

- The grammar-file scanner, `parseonetoken`, action-code translation, destructors, minor values, trace output, reports, file handling and command-line options: the model starts from a grammar that has been read and ends at the tables and the steps of the parser.
- `FindRulePrecedences`: a rule comes with its precedence symbol already chosen.
- Error messages and `errorcnt` of `FindStates` and `FindActions` (bad start symbol, rule never reduced): the conditions they report are hypotheses of the model or have no effect on the tables.
- Free lists, `malloc` failure, and the `from` pointers of the hash tables: never visible in a result.
- The byte arrays inside the phases: `ByteSets` proves the operations on them; the phases work on the sets they stand for.
- Linked lists, and the fields of configuration records: modelled as sequences and maps; aliasing of the C records is not captured.
- `Configtable_find` inside `Configlist_add`: a configuration list is looked up by the keys of a map; `HashTables.ConfigKeysCompatible` and `HashTables.HashTable.Find` prove that the table returns the same.
- The string tables for symbols: instances of the same table code with another comparison and hash.
- Driver.Parser.Parse: takes a bound on the number of turns, because a conflicted or cyclic grammar can reduce for ever; everything is proved for every bound.
- The variant of the stack that grows (`YYSTACKDEPTH<=0`) and the debug variant of the reduce, which has no push in place.
- The branch of `Parse` for grammars without an error symbol: the generator always defines one.
- Completeness.SentenceAccepted: asks for a grammar without fallback, wildcard and conflicts, with an empty rule for every nullable nonterminal, and for the stack depth that `Overflow.DepthIsExact` shows to be exact; beyond these the parser need not accept (`Instances.NullableRejected` for the empty rules, `Overflow.DepthIsExact` for the depth).
- `minimum_size_type`: the emitted tables hold integers of any size.
- Values of hash codes and offsets that would need more than 32 bits, apart from the wrap-around of the hashes.
