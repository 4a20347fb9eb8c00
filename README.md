# Verified models of fourteen C++ design-pattern demos

The repository is a collection of single-file design-pattern demos in C++,
each with its own `main`. This project models the fourteen demos whose
classes hold real logic, one Dafny module per demo, together with a small
shared module for the `erase(remove(...))` idiom:

- **Interpreter** (`InterpreterPattern`): a Roman-numeral reader. Four
  terminal expressions, one for each decimal place, each strip a prefix of
  a shared input and add to an output. `Interpret` is a method over a
  `Context` object, proved against the function `Interpretation`. The model
  includes the quirks of the code:
  - the thousands place uses a single space for its four, five and nine
    symbols;
  - the nine and four branches always strip two characters;
  - `substr` throws `out_of_range` on a lone space.
- **Command** (`CommandPattern`): an invoker with an undo stack and a redo
  stack of document commands. Execute does not clear the redo stack.
- **State** (`StatePattern`): an account whose Red, Silver or Gold state
  object updates its own balance. That state object then checks its limits
  and may hand the account a new state object of another tier.
- **Flyweight** (`FlyweightPattern`): a lazily created factory. It caches
  character objects by `(symbol, point size)` and throws on unknown
  symbols.
- **Adapter** (`AdapterPattern`): a stack over a vector. Pop on an empty
  stack returns the converted `NULL`.
- **Iterator** (`IteratorPattern`): a fixed ten-element array and a cursor
  that stops at the end.
- **Chain of responsibility** (`ChainOfResponsibility`): purchase approval along
  Director, Vice President and President, each forwarding what it cannot
  approve.
- **Mediator** (`MediatorPattern`): a chat room's name table, where the
  first registration wins and a message reaches only a registered name.
- **Memento** (`MementoPattern`): saving and restoring a sales prospect's
  name, phone and budget.
- **Builder** (`BuilderPattern`): a cashier has a chef cook soup, vegetable
  and meat into a food product, one customer tag at a time.
- **Composite** (`CompositePattern`): a picture that adds, removes and
  draws its child graphics in list order.
- **Visitor** (`VisitorPattern`): a collection of employees that applies an
  income or a vacation visitor to every entry.
- **Template method** (`TemplateMethodPattern`): `Run` fixes the order
  connect, select, display, disconnect.
- **Singleton** (`SingletonPattern`): one object, created on first request.

Objects whose fields the C++ code updates in place are Dafny classes, with
`modifies` clauses on their methods. Each method is proved against a
function of the old state; that function carries the lemmas. Where a demo's
console output is what shows an ordering, the printed lines are kept as a
`seq<string>`: as a log in the modelled object for the command console, the
chat room's delivered lines and the data access object's display, and as
the returned result of `BuilderPattern.Serve` (the served dinners) and
`CompositePattern.Picture.Draw` (the drawn picture). Static pointers (`Singleton::instance`,
`CharactorFactory::instance`) are fields of a holder object that is passed
in explicitly. Each demo's `main` is a method or lemma whose contract
pins down that run's outcome.

## Model

| member | source | states |
|---|---|---|
| `InterpreterPattern.LeadingOnes` | 17_Interpreter_Pattern/main.cc:47-51 | The One loop stops at the end of the input or at the first character that is not the One symbol. |
| `InterpreterPattern.LeadingOnesAreOnes` | 17_Interpreter_Pattern/main.cc:47-51 | Every character the One loop strips is the One symbol. |
| `InterpreterPattern.InterpretationShape` | 17_Interpreter_Pattern/main.cc:32-51 | One Interpret call only removes a prefix of the input, and the output never decreases, whether the call returns or throws. |
| `InterpreterPattern.OutOfRangeExactly` | 17_Interpreter_Pattern/main.cc:67-70 | Of the four terminal expressions, only Thousand on the one-character input " " throws: its nine symbol matches, and two characters cannot be stripped from one (lines 35 and 40). |
| `InterpreterPattern.Unroll` | 17_Interpreter_Pattern/main.cc:120-124 | Running a list of expressions is running the first, then the rest on what it left; a throw stops all later expressions. |
| `InterpreterPattern.ShiftedShifted` | 17_Interpreter_Pattern/main.cc:120-124 | Output added by successive expressions accumulates additively. |
| `InterpreterPattern.Context.constructor` | 17_Interpreter_Pattern/main.cc:13 | A new context holds the input and output 0. |
| `InterpreterPattern.Interpret` | 17_Interpreter_Pattern/main.cc:26-52 | The method on the context does what `Interpretation` says: the new input on success, the input untouched when `substr` throws, and the output increased by the value added before the throw. |
| `InterpreterPattern.InterpretAll` | 17_Interpreter_Pattern/main.cc:120-124 | main's loop over the parse tree leaves the context as the pipeline of the expressions prescribes, and reports whether any of them threw. |
| `InterpreterPattern.Evaluate` | 17_Interpreter_Pattern/main.cc:109-127 | main on a numeral: the value printed is the pipeline's total over Thousand, Hundred, Ten and One, and success means nothing threw. |
| `InterpreterPattern.InterpretationValue` | 17_Interpreter_Pattern/main.cc:34-50 | One call adds the multiplier times (9, 4, 5 or 0 for the one branch taken, plus the number of One symbols stripped). The branches are tried nine, four, five, and at most one is taken. |
| `InterpreterPattern.EmptyInput` | 17_Interpreter_Pattern/main.cc:31 | On an empty input Interpret leaves input and output unchanged. |
| `InterpreterPattern.UnmatchedLeadingCharacter` | 17_Interpreter_Pattern/main.cc:32-51 | A leading character that begins no symbol of the expression stays in the input, and nothing is added. |
| `InterpreterPattern.LeadingOnesOfRun` | 17_Interpreter_Pattern/main.cc:47-51 | A run of n One symbols followed by something else is stripped exactly n times, for every n: the loop has no bound. |
| `InterpreterPattern.Run` | 17_Interpreter_Pattern/main.cc:47-51 | A helper for the loop's `find(p) == 0` tests: a run of n copies of a symbol has length n. |
| `InterpreterPattern.Consume` | 17_Interpreter_Pattern/main.cc:32-51 | A call that strips a fixed-width branch and then n One symbols yields the remaining input and (lead + n) × multiplier. |
| `InterpreterPattern.Call` | 17_Interpreter_Pattern/main.cc:32-51 | The same, read as a slice of the input. |
| `InterpreterPattern.Thrown` | 17_Interpreter_Pattern/main.cc:32-41 | A two-character branch on a one-character input throws after adding its value. |
| `InterpreterPattern.Differs` | 17_Interpreter_Pattern/main.cc:32 | A helper for the `find(p) == 0` tests: one differing character makes the test fail. |
| `InterpreterPattern.PrefixOf` | 17_Interpreter_Pattern/main.cc:32 | A helper for the `find(p) == 0` tests: the test holds on p followed by anything. |
| `InterpreterPattern.DigitStep` | 17_Interpreter_Pattern/main.cc:32-51 | A canonically written digit d of the Hundred, Ten or One place, followed by lower places, is consumed exactly and adds d × multiplier. |
| `InterpreterPattern.NineStep` | 17_Interpreter_Pattern/main.cc:32-36 | An input starting with the nine symbol adds 9 × multiplier and strips it. |
| `InterpreterPattern.FourStep` | 17_Interpreter_Pattern/main.cc:37-41 | An input starting with the four symbol adds 4 × multiplier and strips it. |
| `InterpreterPattern.FiveStep` | 17_Interpreter_Pattern/main.cc:42-51 | The five symbol followed by k One symbols adds (5 + k) × multiplier. |
| `InterpreterPattern.FiveLead` | 17_Interpreter_Pattern/main.cc:42-46 | An input starting with the five symbol takes the five branch, which strips one character. |
| `InterpreterPattern.OneLead` | 17_Interpreter_Pattern/main.cc:32-46 | A One symbol that does not start a nine or four symbol takes no special branch. |
| `InterpreterPattern.NoLead` | 17_Interpreter_Pattern/main.cc:32-46 | An input not starting with a symbol of the place takes no special branch. |
| `InterpreterPattern.OnesStep` | 17_Interpreter_Pattern/main.cc:47-51 | One to three One symbols before a lower place add their count × multiplier. |
| `InterpreterPattern.RunStep` | 17_Interpreter_Pattern/main.cc:47-51 | Any number of One symbols before an input not starting with one adds their count × multiplier. |
| `InterpreterPattern.RunShape` | 17_Interpreter_Pattern/main.cc:32-51 | What the four tests see of a run of One symbols followed by a lower place. |
| `InterpreterPattern.DigitStart` | 17_Interpreter_Pattern/main.cc:78-106 | A non-empty canonical digit starts with the place's One or five symbol. |
| `InterpreterPattern.AvoidsAfter` | 17_Interpreter_Pattern/main.cc:78-106 | Prefixing a digit whose symbols avoid some characters keeps the input clear of them at its start. |
| `InterpreterPattern.ThousandsStep` | 17_Interpreter_Pattern/main.cc:66 | Thousand consumes a run of M whole and adds 1000 per M. |
| `InterpreterPattern.NumeralValue` | 17_Interpreter_Pattern/main.cc:111-126 | main's parse tree reads every canonical numeral (any number of M, then hundreds, tens and ones) to its value. |
| `InterpreterPattern.Tables` | 17_Interpreter_Pattern/main.cc:66-106 | The Hundred, Ten and One tables each have the positional shape, and the symbols of a lower place never clash with those of a higher one. |
| `InterpreterPattern.PlacesValue` | 17_Interpreter_Pattern/main.cc:111-126 | For any positional tables that do not clash, a thousands run and three digits evaluate to their value through the four expressions. |
| `InterpreterPattern.FourPlaces` | 17_Interpreter_Pattern/main.cc:120-124 | Four expressions that each consume what the previous left add up their values. |
| `InterpreterPattern.PipelineCons` | 17_Interpreter_Pattern/main.cc:120-124 | One consuming step at the head of the pipeline shifts the rest's result by its value. |
| `InterpreterPattern.MainTrace` | 17_Interpreter_Pattern/main.cc:111-126 | "MCMXXVIII" evaluates to 1928 with nothing left over. |
| `InterpreterPattern.OneExamples` | 17_Interpreter_Pattern/main.cc:97-107 | One place: "VIII" gives 8, "IX" gives 9, and the non-canonical "IIII" gives 4. |
| `InterpreterPattern.ThousandExample` | 17_Interpreter_Pattern/main.cc:66 | "MMMM" gives 4000. |
| `InterpreterPattern.LeadingSpace` | 17_Interpreter_Pattern/main.cc:32-51 | On any input of two or more characters starting with a space, Thousand reads the space as its nine symbol, strips two characters whatever the second is, then counts the run of M after them: the value is (9 + run) * 1000 and the rest follows the run. |
| `InterpreterPattern.LeadingSpaceExample` | 17_Interpreter_Pattern/main.cc:67-70 | " X" adds 9000 and its X is stripped together with the space. |
| `CommandPattern.DocumentInvoker.constructor` | 14_Command_Pattern/main.cc:59-63 | A new invoker has both stacks empty. |
| `CommandPattern.ExecuteLine` | 14_Command_Pattern/main.cc:44-54 | The line a command prints when executed ("Display: " or "Delete: " and the document's name); the body is the model, and `LinesNameDoc` states what it shows. |
| `CommandPattern.UndoLine` | 14_Command_Pattern/main.cc:45-55 | The line a command prints when undone ("Hide doc: " or "Restore doc: " and the document's name); the body is the model, and `LinesNameDoc` states what it shows. |
| `CommandPattern.LinesNameDoc` | 14_Command_Pattern/main.cc:44-55 | Both lines end with the document's name, and undoing a command prints a different line from executing it. |
| `CommandPattern.DocumentInvoker.Execute` | 14_Command_Pattern/main.cc:65-69 | The new state is `ExecuteOf` of the old one. |
| `CommandPattern.DocumentInvoker.Undo` | 14_Command_Pattern/main.cc:70-79 | The new state is `UndoOf` of the old one. |
| `CommandPattern.DocumentInvoker.Redo` | 14_Command_Pattern/main.cc:80-89 | The new state is `RedoOf` of the old one. |
| `CommandPattern.ExecutePushes` | 14_Command_Pattern/main.cc:65-69 | Execute pushes the command as the new undo top, keeps the rest of the undo stack, leaves the redo stack untouched and prints the command's execute line. |
| `CommandPattern.EmptyStacks` | 14_Command_Pattern/main.cc:72 | Undo on an empty undo stack and Redo on an empty redo stack change nothing. |
| `CommandPattern.UndoMovesTop` | 14_Command_Pattern/main.cc:72-78 | Undo pops the undo top, prints its undo line and pushes it onto the redo stack. |
| `CommandPattern.RedoMovesTop` | 14_Command_Pattern/main.cc:82-88 | Redo pops the redo top, prints its execute line and pushes it onto the undo stack. |
| `CommandPattern.UndoRedoRoundTrip` | 14_Command_Pattern/main.cc:70-89 | Undo then Redo restores both stacks when the undo stack was non-empty, and Redo then Undo does so when the redo stack was non-empty. |
| `CommandPattern.SizeInvariant` | 14_Command_Pattern/main.cc:65-89 | The two stacks' total size grows by one on Execute and is unchanged by Undo and Redo. |
| `CommandPattern.UndoMovesCommands` | 14_Command_Pattern/main.cc:70-79 | Undo only moves commands: the multiset of commands over both stacks is kept. |
| `CommandPattern.RedoMovesCommands` | 14_Command_Pattern/main.cc:80-89 | Redo keeps the multiset of commands over both stacks. |
| `CommandPattern.MainSequence` | 14_Command_Pattern/main.cc:108-117 | After main's ten calls, the undo stack is empty, the redo stack is [del, disp2, disp], and the eight lines printed are in order. |
| `CommandPattern.MainTrace` | 14_Command_Pattern/main.cc:108-117 | The same on histories, and the last two Undo calls change nothing. |
| `StatePattern.State.Initial` | 23_State_Pattern/main.cc:161-166 | The state constructor from a balance and an account stores both (also GoldState at lines 215-220). |
| `StatePattern.State.From` | 23_State_Pattern/main.cc:154-159 | The constructor from a previous state copies its balance and account into the new tier (also lines 106-111 and 208-213). |
| `StatePattern.State.Deposit` | 23_State_Pattern/main.cc:168-172 | Deposit adds the amount in every tier and then runs the tier's check (also lines 113-117 and 222-226). |
| `StatePattern.State.Withdraw` | 23_State_Pattern/main.cc:174-178 | Silver and Gold subtract the amount and check. Red (lines 119-123) changes neither the balance nor the account's state. |
| `StatePattern.State.PayInterest` | 23_State_Pattern/main.cc:180-184 | Silver and Gold add interest × balance and check (also lines 234-238). Red pays nothing (lines 125-128). |
| `StatePattern.State.StateChangeCheck` | 23_State_Pattern/main.cc:285-315 | Either the account keeps this state, or it gets a fresh state of the tier `Check` names, carrying this state's balance and account. |
| `StatePattern.Check` | 23_State_Pattern/main.cc:285-315 | The tier after a check: Red never goes straight to Gold; a Red result means the balance is at most 0, a Silver result at least 0, a Gold result at least 1000; and the tier stays exactly when the balance is within its limits (Red checks no lower limit, Gold no upper one). |
| `StatePattern.Account.constructor` | 23_State_Pattern/main.cc:247-252 | A new account is Silver with balance 0. |
| `StatePattern.Account.SetState` | 23_State_Pattern/main.cc:34 | The account now holds the given state. |
| `StatePattern.Account.Deposit` | 23_State_Pattern/main.cc:256-263 | The account's tier and balance become `DepositOf` of the old ones. |
| `StatePattern.Account.Withdraw` | 23_State_Pattern/main.cc:265-272 | The account's tier and balance become `WithdrawOf` of the old ones. |
| `StatePattern.Account.PayInterest` | 23_State_Pattern/main.cc:274-281 | The account's tier and balance become `PayInterestOf` of the old ones. |
| `StatePattern.BalanceChanges` | 23_State_Pattern/main.cc:168-178 | Deposit adds the amount in every tier; Withdraw subtracts it in Silver and Gold. |
| `StatePattern.RedIsFrozen` | 23_State_Pattern/main.cc:119-128 | In Red, Withdraw and PayInterest leave tier and balance as they were. |
| `StatePattern.SilverThresholds` | 23_State_Pattern/main.cc:293-303 | Silver goes to Red exactly below 0 and to Gold exactly above 1000; 0 and 1000 stay Silver. |
| `StatePattern.GoldThresholds` | 23_State_Pattern/main.cc:305-315 | Gold goes to Red exactly below 0 and to Silver exactly on [0, 1000); 1000 and any higher balance stay Gold, since the upper limit is never checked. |
| `StatePattern.RedThresholds` | 23_State_Pattern/main.cc:285-291 | Red never goes to Gold, and goes to Silver exactly above 0. |
| `StatePattern.SingleStep` | 23_State_Pattern/main.cc:285-291 | One check makes at most one step: a deposit lifting Red above 1000 lands in Silver, and only the next operation's check reaches Gold. |
| `StatePattern.MainTrace` | 23_State_Pattern/main.cc:324-329 | main's trace is 500 Silver, 800 Silver, 1350 Gold, 1417.5 Gold, -582.5 Red, and -582.5 Red again. |
| `StatePattern.MainSequence` | 23_State_Pattern/main.cc:318-333 | The same on the objects: the account ends Red at -582.5. |
| `FlyweightPattern.Charactor.constructor` | 11_Flyweight_Pattern/main.cc:62 | A character holds its shared record and its own point size. |
| `FlyweightPattern.Charactor.SetPointSize` | 11_Flyweight_Pattern/main.cc:70 | Only the point size changes. |
| `FlyweightPattern.SharedOf` | 11_Flyweight_Pattern/main.cc:50-52 | The shared record of 'A' or 'B' carries that symbol (and B's is given at lines 84-86). |
| `FlyweightPattern.CharactorFactory.constructor` | 11_Flyweight_Pattern/main.cc:118 | A new factory has an empty table. |
| `FlyweightPattern.CharactorFactory.GetCharactor` | 11_Flyweight_Pattern/main.cc:128-144 | An existing non-null entry is returned and never replaced. Otherwise 'A' or 'B' gets a fresh object with that symbol's shared record and the size. Any other key throws and leaves a null entry. In every case each object in the table carries its key's record. |
| `FlyweightPattern.FactoryHolder.constructor` | 11_Flyweight_Pattern/main.cc:147 | The static factory pointer starts null. |
| `FlyweightPattern.FactoryHolder.Instance` | 11_Flyweight_Pattern/main.cc:121-126 | The first call creates an empty factory; every later call returns the same one; every call returns a factory whose table keeps the factory's invariant. |
| `FlyweightPattern.MainSequence` | 11_Flyweight_Pattern/main.cc:150-168 | 'A' at size 10 twice is one object and at size 12 another; all share A's width 120, height 100, ascent 70 and descent 0. |
| `FlyweightPattern.RepeatedThrow` | 11_Flyweight_Pattern/main.cc:130-140 | An unknown key throws on every request and only leaves a null entry behind. |
| `AdapterPattern.AdapterStack.constructor` | 06_Adapter_Pattern/main.cc:39 | A new stack is empty. |
| `AdapterPattern.AdapterStack.Push` | 06_Adapter_Pattern/main.cc:21-22 | The item becomes the new top. |
| `AdapterPattern.AdapterStack.Peek` | 06_Adapter_Pattern/main.cc:23-24 | Returns the top, and needs a non-empty stack. |
| `AdapterPattern.AdapterStack.Pop` | 06_Adapter_Pattern/main.cc:25-32 | Returns and leaves what `Popped` says: the null value on an empty stack, else the top and the rest. |
| `AdapterPattern.PopAfterPush` | 06_Adapter_Pattern/main.cc:21-31 | Pop after Push(x) returns x and restores the previous stack. |
| `AdapterPattern.PopEmpty` | 06_Adapter_Pattern/main.cc:27-28 | Pop on an empty stack returns the null value and leaves it empty. |
| `AdapterPattern.LastInFirstOut` | 06_Adapter_Pattern/main.cc:21-31 | Popping as many items as were pushed returns them in reverse order and restores the stack underneath. |
| `AdapterPattern.Reverse` | 06_Adapter_Pattern/main.cc:21-31 | The popping order of pushed items: position i holds the item pushed i-th from the end. |
| `AdapterPattern.MainSequence` | 06_Adapter_Pattern/main.cc:36-47 | main prints 16, 16 and 0. |
| `IteratorPattern.Pattern` | 15_Iterator_Pattern/main.cc:50-51 | The initial list has LENGTH = 10 elements. |
| `IteratorPattern.ConcreteList.constructor` | 15_Iterator_Pattern/main.cc:44-52 | The array has the ten elements t, t+4, t-3, t-4, t+5, t-1, t+5, t+8, t-2, t+3. |
| `IteratorPattern.ConcreteList.GetIterator` | 15_Iterator_Pattern/main.cc:55-56 | A fresh iterator over this list at index 0. |
| `IteratorPattern.ConcreteList.Length` | 15_Iterator_Pattern/main.cc:59-60 | Always LENGTH, 10. |
| `IteratorPattern.ConcreteList.GetElement` | 15_Iterator_Pattern/main.cc:61-62 | `list[index]`; the body is the model, and the index must be in range since the source does not check it. |
| `IteratorPattern.ConcreteIterator.constructor` | 15_Iterator_Pattern/main.cc:75 | A new iterator starts at index 0. |
| `IteratorPattern.ConcreteIterator.First` | 15_Iterator_Pattern/main.cc:82-83 | Resets the index to 0. |
| `IteratorPattern.ConcreteIterator.MoveNext` | 15_Iterator_Pattern/main.cc:78-79 | True exactly while the index is below 10; the cursor does not move. |
| `IteratorPattern.ConcreteIterator.CurrentItem` | 15_Iterator_Pattern/main.cc:80-81 | The list's element at the cursor; the body is the model. |
| `IteratorPattern.ConcreteIterator.Next` | 15_Iterator_Pattern/main.cc:84-85 | Advances only while the index is below the length, so it stops at 10. |
| `IteratorPattern.Traverse` | 15_Iterator_Pattern/main.cc:91-99 | main's loop visits exactly the ten elements, in storage order. |
| `IteratorPattern.MainOutput` | 15_Iterator_Pattern/main.cc:92 | For t = 7 these are 7, 11, 4, 3, 12, 6, 12, 15, 5, 10. |
| `ChainOfResponsibility.HandlerIsFirst` | 19_Chain_of_Responsibility_Pattern/main.cc:58-107 | The handler is the first approver along the chain whose limit is above the amount; when there is none, nobody handles the request. |
| `ChainOfResponsibility.Purchase.constructor` | 19_Chain_of_Responsibility_Pattern/main.cc:24-29 | A purchase holds the number, amount and purpose given. |
| `ChainOfResponsibility.Purchase.SetAmount` | 19_Chain_of_Responsibility_Pattern/main.cc:31 | The amount changes and nothing else. |
| `ChainOfResponsibility.Purchase.SetPurpose` | 19_Chain_of_Responsibility_Pattern/main.cc:33 | The purpose changes and nothing else. |
| `ChainOfResponsibility.Purchase.SetNumber` | 19_Chain_of_Responsibility_Pattern/main.cc:35 | The number changes and nothing else. |
| `ChainOfResponsibility.Approver.constructor` | 19_Chain_of_Responsibility_Pattern/main.cc:114-116 | A new approver of a rank has no successor. |
| `ChainOfResponsibility.Approver.SetSuccessor` | 19_Chain_of_Responsibility_Pattern/main.cc:47-48 | Sets the successor. |
| `ChainOfResponsibility.Approver.ProcessRequest` | 19_Chain_of_Responsibility_Pattern/main.cc:58-107 | Along an acyclic chain, the approver returned is the one at the position `Handler` gives, or none. |
| `ChainOfResponsibility.StrictLimits` | 19_Chain_of_Responsibility_Pattern/main.cc:60-98 | The limits are strict: 9999.99 goes to the Director, 10000 to the Vice President, 25000 to the President, and 100000 to nobody. |
| `ChainOfResponsibility.MainHandlers` | 19_Chain_of_Responsibility_Pattern/main.cc:121-128 | 350 goes to the Director, 32590.10 to the President, and 122100 to nobody. |
| `ChainOfResponsibility.BuildChain` | 19_Chain_of_Responsibility_Pattern/main.cc:114-118 | Larry, Sam and Tammy form an acyclic chain of Director, Vice President and President. |
| `ChainOfResponsibility.MainSequence` | 19_Chain_of_Responsibility_Pattern/main.cc:111-132 | main's three requests are approved by Larry, by Tammy and by nobody. |
| `MediatorPattern.Participant.constructor` | 18_Mediator_Pattern/main.cc:29-30 | A participant has its name and kind, and no chat room yet. |
| `MediatorPattern.Participant.SetChatroom` | 18_Mediator_Pattern/main.cc:37-38 | Sets the chat room. |
| `MediatorPattern.Participant.Send` | 18_Mediator_Pattern/main.cc:107-108 | Sends through its chat room with its own name as the sender. |
| `MediatorPattern.Line` | 18_Mediator_Pattern/main.cc:44-71 | A received line starts with the kind's prefix followed by the sender and ends with the message; it is longer than the receiver's name, the sender and the message together. |
| `MediatorPattern.Chatroom.constructor` | 18_Mediator_Pattern/main.cc:87 | A new room has an empty table and has printed nothing. |
| `MediatorPattern.Chatroom.Register` | 18_Mediator_Pattern/main.cc:90-97 | The new room state is `RegisterOf` of the old one, and the participant points at this room either way. |
| `MediatorPattern.Chatroom.Send` | 18_Mediator_Pattern/main.cc:99-103 | The new room state is `SendOf` of the old one. |
| `MediatorPattern.FirstRegistrationWins` | 18_Mediator_Pattern/main.cc:92-95 | After Register, the name is registered and resolves to the earlier participant if it was already taken, else to the new one. No other name changes and nothing is printed. |
| `MediatorPattern.Delivery` | 18_Mediator_Pattern/main.cc:99-103 | A message prints one line exactly when the addressee is registered, and that line is the registered participant's. Sending never changes who is registered or what any name resolves to. |
| `MediatorPattern.NullEntryReplaced` | 18_Mediator_Pattern/main.cc:92-101 | Sending to a name nobody holds leaves a null entry, which a later Register of that name replaces. |
| `MediatorPattern.Deliverable` | 18_Mediator_Pattern/main.cc:99-103 | At most one delivery per message. |
| `MediatorPattern.Conversation` | 18_Mediator_Pattern/main.cc:99-103 | Over any run of messages, the registered names stay the same, the earlier log is kept as a prefix, and it grows by one line per message addressed to a registered name. |
| `MediatorPattern.Registrations` | 18_Mediator_Pattern/main.cc:122-126 | Five participants with distinct names, registered in turn, each resolve under their own name. |
| `MediatorPattern.Deliver` | 18_Mediator_Pattern/main.cc:99-103 | A message to a resolved participant prints that participant's line and changes no lookup. |
| `MediatorPattern.Conversation5` | 18_Mediator_Pattern/main.cc:129-133 | main's five messages are delivered, in order, to John, Ringo, George, John and Yoko. |
| `MediatorPattern.MainSetup` | 18_Mediator_Pattern/main.cc:114-126 | George, Paul and Ringo are non-Beatles, John and Yoko Beatles, all registered and pointing at the room. |
| `MediatorPattern.RegisterFive` | 18_Mediator_Pattern/main.cc:122-126 | Five registrations in a row. |
| `MediatorPattern.FirstLine` | 18_Mediator_Pattern/main.cc:129 | The first line printed is "To a Beatle: Yoko to John : Hi John". |
| `MediatorPattern.MainConversation` | 18_Mediator_Pattern/main.cc:129-133 | The five sends on the objects print the five lines in order. |
| `MediatorPattern.MainSequence` | 18_Mediator_Pattern/main.cc:111-137 | main prints exactly the five delivered lines, in send order. |
| `MementoPattern.Apply` | 20_Memento_Pattern/main.cc:70-77 | Each setter changes its own field to the value and leaves the other two alone. |
| `MementoPattern.SetAllThree` | 20_Memento_Pattern/main.cc:89-91 | Setting name, phone and budget from a record yields that record, whatever came before. |
| `MementoPattern.Untouched` | 20_Memento_Pattern/main.cc:70-77 | A sequence of setters that never sets a field leaves that field as it was. |
| `MementoPattern.ApplyAllSnoc` | 20_Memento_Pattern/main.cc:70-77 | Setters applied one after the other compose. |
| `MementoPattern.Memento.constructor` | 20_Memento_Pattern/main.cc:31-36 | A memento holds the three values given. |
| `MementoPattern.Memento.SetName` | 20_Memento_Pattern/main.cc:39 | Changes the name only. |
| `MementoPattern.Memento.SetPhone` | 20_Memento_Pattern/main.cc:41 | Changes the phone only. |
| `MementoPattern.Memento.SetBudget` | 20_Memento_Pattern/main.cc:43 | Changes the budget only. |
| `MementoPattern.ProspectMemory.constructor` | 20_Memento_Pattern/main.cc:105 | A new memory holds no memento. |
| `MementoPattern.ProspectMemory.SetMemento` | 20_Memento_Pattern/main.cc:55-56 | GetMemento returns what SetMemento stored. |
| `MementoPattern.ProspectMemory.GetMemento` | 20_Memento_Pattern/main.cc:55 | The stored memento, or null; the body is the model. |
| `MementoPattern.SalesProspect.constructor` | 20_Memento_Pattern/main.cc:99 | A new prospect has an empty name and phone and budget 0. |
| `MementoPattern.SalesProspect.SetName` | 20_Memento_Pattern/main.cc:70-71 | Changes the name only. |
| `MementoPattern.SalesProspect.SetPhone` | 20_Memento_Pattern/main.cc:73-74 | Changes the phone only. |
| `MementoPattern.SalesProspect.SetBudget` | 20_Memento_Pattern/main.cc:76-77 | Changes the budget only. |
| `MementoPattern.SalesProspect.Perform` | 20_Memento_Pattern/main.cc:70-77 | Any one setter, as an edit. |
| `MementoPattern.SalesProspect.SaveMemento` | 20_Memento_Pattern/main.cc:80-84 | A new memento holding the current name, phone and budget. |
| `MementoPattern.SalesProspect.RestoreMemento` | 20_Memento_Pattern/main.cc:86-92 | The three setters in order, which set all three fields to the memento's. |
| `MementoPattern.SaveEditRestore` | 20_Memento_Pattern/main.cc:99-114 | Save, any sequence of setters, restore: the prospect is as it was at save time, and the saved memento was not altered by the setters. |
| `MementoPattern.MainSequence` | 20_Memento_Pattern/main.cc:96-118 | main ends with "xiaoming", "(010)65236523", 28000 restored, and the memory still holds that copy. |
| `BuilderPattern.AddedCourse` | 03_Builder/main.cc:35 | On empty courses the argument becomes the courses; otherwise " & " and the argument are appended. |
| `BuilderPattern.AddingJoins` | 03_Builder/main.cc:35 | Adding non-empty courses one by one to a new product lists them, in order, with " & " between neighbours. |
| `BuilderPattern.EmptyCourseVanishes` | 03_Builder/main.cc:35 | An empty course added to empty courses leaves no separator behind. |
| `BuilderPattern.ProductFood.constructor` | 03_Builder/main.cc:34 | A new product has its name and empty courses. |
| `BuilderPattern.ProductFood.AddCourse` | 03_Builder/main.cc:35 | The courses become `AddedCourse` of the old ones. |
| `BuilderPattern.Taste` | 03_Builder/main.cc:37 | What `GetTaste` returns for a food name and its courses; the body is the model, and `TasteShows` states what it shows. |
| `BuilderPattern.TasteShows` | 03_Builder/main.cc:37 | The taste starts with the food name in brackets and " => ", ends with the courses, and is six characters longer than both. |
| `BuilderPattern.ProductFood.GetTaste` | 03_Builder/main.cc:37 | `Taste` of this product's name and courses; the body is the model. |
| `BuilderPattern.Menu` | 03_Builder/main.cc:55-68 | A chef cooks three non-empty courses. |
| `BuilderPattern.CookSoup` | 03_Builder/main.cc:55-66 | Adds the chef's soup. |
| `BuilderPattern.CookVegetable` | 03_Builder/main.cc:56-67 | Adds the chef's vegetable. |
| `BuilderPattern.CookMeat` | 03_Builder/main.cc:57-68 | Adds the chef's meat. |
| `BuilderPattern.Direct` | 03_Builder/main.cc:75-81 | The cashier adds soup, vegetable and meat in that order; on a new product the courses are the chef's menu joined by " & ". |
| `BuilderPattern.MenuJoined` | 03_Builder/main.cc:75-81 | The three courses cooked in order into empty courses form the joined menu. |
| `BuilderPattern.ChefFor` | 03_Builder/main.cc:106-111 | "Chinese", and only it, selects the Chinese chef; "American", and only it, selects the American chef. |
| `BuilderPattern.ServedConcat` | 03_Builder/main.cc:103-119 | Serving two tag lists in turn prints the two outputs one after the other. |
| `BuilderPattern.ServedOne` | 03_Builder/main.cc:106-115 | A recognised tag prints its one line; any other tag prints nothing. |
| `BuilderPattern.Recognised` | 03_Builder/main.cc:106-111 | At most one recognised customer per tag. |
| `BuilderPattern.ServedCount` | 03_Builder/main.cc:103-119 | One line is printed per recognised tag. |
| `BuilderPattern.Serve` | 03_Builder/main.cc:103-119 | The serving loop prints `Served(tags)`: in list order, a product named after the tag and built by the selected chef, skipping tags that select none. |
| `BuilderPattern.ChineseDinner` | 03_Builder/main.cc:55-57 | The Chinese product tastes "[Chinese food] => Chinese soup & Chinese vegetable & Chinese meat". |
| `BuilderPattern.AmericanDinner` | 03_Builder/main.cc:66-68 | The American product likewise. |
| `BuilderPattern.SkipsUnknown` | 03_Builder/main.cc:103-115 | Tags "Chinese", "Korean", "American" serve the Chinese and the American customer, in that order. |
| `SeqErase.Count` | 09_Composite_Pattern/main.cc:49 | The number of occurrences is at most the length. |
| `SeqErase.Without` | 09_Composite_Pattern/main.cc:49 | Dropping every occurrence shortens the sequence by their number. |
| `SeqErase.Step` | 09_Composite_Pattern/main.cc:49 | How one more element changes the count and the compacted front. |
| `SeqErase.Occurs` | 09_Composite_Pattern/main.cc:49 | No occurrence exactly when the value is absent; the compacted front never contains it. |
| `SeqErase.RemoveErase` | 09_Composite_Pattern/main.cc:49 | `erase(remove(...))` of a present value: the other elements in order, then the old tail after the first of the k leftover slots; exactly one element goes, and with a single occurrence it is just that element. |
| `SeqErase.RemoveSingle` | 09_Composite_Pattern/main.cc:49 | A value that occurs once is removed and everything else stays in order. |
| `SeqErase.NotThere` | 09_Composite_Pattern/main.cc:49 | Without an occurrence there is nothing to drop. |
| `CompositePattern.Graphic.constructor` | 09_Composite_Pattern/main.cc:56 | A graphic has its kind and description. |
| `CompositePattern.Drawn` | 09_Composite_Pattern/main.cc:58-79 | A child's line is longer than its description plus its brackets. |
| `CompositePattern.DrawnShowsDesc` | 09_Composite_Pattern/main.cc:58-79 | A child's line starts "Draw a " and ends with its description between "[" and "]". |
| `CompositePattern.DrawnAll` | 09_Composite_Pattern/main.cc:41 | One line per child, the i-th line drawing the i-th child. |
| `CompositePattern.Picture.constructor` | 09_Composite_Pattern/main.cc:36 | A new picture has its description and no children. |
| `CompositePattern.Picture.Add` | 09_Composite_Pattern/main.cc:45-46 | The child is appended at the end. |
| `CompositePattern.Picture.Remove` | 09_Composite_Pattern/main.cc:48-49 | The child must be present; one element goes, and a child present once is removed with the others kept in order. |
| `CompositePattern.Picture.Draw` | 09_Composite_Pattern/main.cc:38-43 | The header, the children's lines in list order, the footer. |
| `CompositePattern.MainSequence` | 09_Composite_Pattern/main.cc:83-98 | The picture ends with the bottom line, the rectangle, the circle and the left line, in that order, and draws them so. |
| `VisitorPattern.Employee.constructor` | 22_Visitor_Pattern/main.cc:36-39 | An employee holds the name, income and vacation days given. |
| `VisitorPattern.Employee.Clerk` | 22_Visitor_Pattern/main.cc:52 | Hank, 25000, 14 days. |
| `VisitorPattern.Employee.Director` | 22_Visitor_Pattern/main.cc:61 | Elly, 35000, 16 days. |
| `VisitorPattern.Employee.President` | 22_Visitor_Pattern/main.cc:70 | Dick, 45000, 21 days. |
| `VisitorPattern.Employee.Accept` | 22_Visitor_Pattern/main.cc:42-43 | The employee's data become `Visited` of the old data. |
| `VisitorPattern.Visited` | 22_Visitor_Pattern/main.cc:78-98 | The income visitor multiplies the income by 1.10; the vacation visitor adds exactly 3 days. Each leaves the other fields alone. |
| `VisitorPattern.VacationTimes` | 22_Visitor_Pattern/main.cc:92-98 | n vacation visits add exactly 3n days and change nothing else. |
| `VisitorPattern.IncomeTimes` | 22_Visitor_Pattern/main.cc:78-84 | n income visits multiply the income by 1.10 to the n and change nothing else. |
| `VisitorPattern.Employees.constructor` | 22_Visitor_Pattern/main.cc:133 | A new collection is empty. |
| `VisitorPattern.Employees.Attach` | 22_Visitor_Pattern/main.cc:109-110 | The employee is appended at the end. |
| `VisitorPattern.Employees.Detach` | 22_Visitor_Pattern/main.cc:112-113 | The employee must be present; one entry goes, and one present once is removed with the others kept in order. |
| `VisitorPattern.Employees.Accept` | 22_Visitor_Pattern/main.cc:116-126 | Every entry is visited once, front to back: an employee listed k times is visited k times, and anyone else is left alone. |
| `VisitorPattern.CountStep` | 22_Visitor_Pattern/main.cc:119-123 | One more entry is one more visit for its own employee and none for anyone else. |
| `VisitorPattern.MainSequence` | 22_Visitor_Pattern/main.cc:130-144 | After main, Hank has 27500 and 17 days, Elly 38500 and 19, Dick 49500 and 24. |
| `VisitorPattern.OnceEach` | 22_Visitor_Pattern/main.cc:134-136 | Three distinct employees attached once each are each listed once. |
| `TemplateMethodPattern.SqlResult` | 13_Template_Method/main.cc:45-46 | The result is "Result of '", the query and a closing quote; the connection string plays no part. |
| `TemplateMethodPattern.QueryOf` | 13_Template_Method/main.cc:45-46 | A query read back out of a text gives that text again as a result. |
| `TemplateMethodPattern.QueryRoundTrip` | 13_Template_Method/main.cc:45-46 | Every result gives its query back, whatever the connection string. |
| `TemplateMethodPattern.DataAccessObject.constructor` | 13_Template_Method/main.cc:89 | A new object has an empty connection string and data set. |
| `TemplateMethodPattern.DataAccessObject.Connect` | 13_Template_Method/main.cc:24-25 | Sets the Northwind connection string and nothing else. |
| `TemplateMethodPattern.DataAccessObject.Disconnect` | 13_Template_Method/main.cc:26-27 | Clears the connection string and nothing else. |
| `TemplateMethodPattern.DataAccessObject.Select` | 13_Template_Method/main.cc:53-57 | The data set becomes the result of the table's own query (Products at lines 70-74). |
| `TemplateMethodPattern.DataAccessObject.Display` | 13_Template_Method/main.cc:58-62 | Shows the table's header and then the data set (Products at lines 75-79). |
| `TemplateMethodPattern.DataAccessObject.Run` | 13_Template_Method/main.cc:35-41 | Whatever came before, afterwards the object is disconnected, holds its own query's result, and has shown exactly its header and that result. |
| `TemplateMethodPattern.MainSequence` | 13_Template_Method/main.cc:83-100 | main shows the Categories header and result, then the Products header and result; each result quotes its own query. |
| `SingletonPattern.Singleton.constructor` | 01_Singleton_Pattern/main.cc:15 | The object is created with val 0. |
| `SingletonPattern.Singleton.SetVal` | 01_Singleton_Pattern/main.cc:28 | getVal afterwards returns the value set. |
| `SingletonPattern.Singleton.GetVal` | 01_Singleton_Pattern/main.cc:27 | The stored value; the body is the model. |
| `SingletonPattern.Holder.constructor` | 01_Singleton_Pattern/main.cc:31 | The static pointer starts null. |
| `SingletonPattern.Holder.Instance` | 01_Singleton_Pattern/main.cc:20-25 | The first call creates the object with val 0; later calls return the same object with its val untouched. |
| `SingletonPattern.SetThenGet` | 01_Singleton_Pattern/main.cc:37-42 | A value set through one Instance() call is read back through a separate later call, which returns the same object. |
| `SingletonPattern.MainSequence` | 01_Singleton_Pattern/main.cc:34-46 | main reads back 12. |

## Left out

- Console output: the printed lines are modelled only in the Command, Mediator and Template method models (a log in the object) and in the Builder and Composite models (returned lines). Every other print is returned instead or dropped:
  - returned instead: the chain's approvals (as the approving object), the Adapter and Iterator values, the Interpreter's `MCMXXVIII=1928` line (`Evaluate` returns the value), the Singleton's value line (read back by `MainSequence`), and the Flyweight's "is / is NOT the same" lines (stated as `ca1 == ca2 && ca1 != ca3`);
  - dropped: Flyweight's `Display`, the state messages, the Memento setter, save and restore lines, the Visitor constructor and visitor lines, and the Singleton's line announcing the value it sets.
  - Stream formatting of numbers is not modelled.
- `IteratorPattern.ConcreteList`: the C++ template `ConcreteList<T>` is fixed to `int`, the only type `main` instantiates it with; `Pattern` needs arithmetic on `t`.
- `MediatorPattern.Line`: the line is modelled as one string. In the source, the prefix and the body go to `cout` separately. The contract states the prefix and the sender at the start and the message at the end, not the wording in between.
- C++ `int` is unbounded here: no overflow in point sizes, purchase numbers, vacation days or the interpreter's output.
- `double` is an exact `real`. The rounding of `Income *= 1.10`, of Gold's 0.05 interest and of amounts such as 32590.10 is not modelled.
- Memory management is not modelled: the State destructor's `preState` chain, the `delete` calls in `main`, and the objects `main` leaks.
- The Builder demo reads its customer tags from the file `./customers` (03_Builder/main.cc:88-95). `Serve` takes the list already read, in file order.
- Static members (`Singleton::instance`, `CharactorFactory::instance`, the shared records of CharactorA and CharactorB) are a holder object or constants passed in explicitly, not globals.
- The commands are values (`Display(doc)` / `Delete(doc)` of a document name), not heap objects; nothing in the demo distinguishes two equal commands.
- `ChainOfResponsibility.Approver.ProcessRequest`: the recursion along `successor` is proved only for an acyclic chain, given as a ghost sequence of approvers. A cyclic chain would recurse forever in C++.
- `MediatorPattern.Participant.constructor`: the source leaves the `chatroom` pointer uninitialised. The model starts it as null, and `Send` requires a room.
- `SeqErase.RemoveErase`: the slots behind the new logical end of `std::remove` are unspecified by the C++ standard. The model keeps the old elements there, as the usual library does. With a single occurrence, which is the only case the demos reach, the result does not depend on this.
- Interfaces and abstract classes (`IIterator`, `IList`, `AbstractChatroom`, `AbstractBulder_Chef`, `IVisitor`, `AbstractComponent_Graphics`, `DocumentCommand`) are not separate entities: the concrete kinds are datatype constructors or a kind field.
- The long literal lines of the Builder, Composite, Mediator and Template method demos are stated through their defining functions (`Taste`, `Drawn`, `Line`, `SqlResult`). For example, the Builder dinners are written as concatenations of their parts, not as one literal.
- Abstract Factory, Factory Method, Prototype, Bridge, Decorator, Facade, Proxy, Observer and Strategy are not part of this model. They only construct and print, use randomness and static counters, are pure floating-point arithmetic, or wrap `std::sort`.
