# Symbol resolution in PowerShell Editor Services, modelled in Dafny

PowerShell Editor Services answers editor questions about a PowerShell
script by walking the script's syntax tree: which symbol is under the
cursor, which command the cursor is in, where a symbol is declared, where
it is referenced (optionally through command aliases), which symbols a
document declares, what the keys of a hashtable are, whether a file is a
data file (`.psd1`), and what hover text a symbol gets.

This project models that core:

- `Ast` — the parts of the PowerShell syntax tree the visitors look at, as
  one `Node` datatype whose `Children` give the order the tree's `Visit`
  enters them. A class method (`FunctionMember`) holds, as its only child,
  the function definition the parser builds for every method; the method's
  name, parameters and body are read from that definition.
- `Symbols` — `SymbolType`, `SymbolReference` and the extra data the
  method, property and class references carry.
- `AstHelpers` and the six reference modules (`ClassDefinitionSymbolReference`,
  `ClassSymbolReference`, `MethodCallReference`, `MethodSymbolReference`,
  `PropertyCallReference`, `PropertySymbolReference`) — how a reference is
  named, where its name lies in the text, and who owns a member.
- `ReferenceHelperExtensions` — when a reference refers to a declaration,
  a call or a member access.
- `FindSymbolVisitor`, `FindCommandVisitor`, `FindDeclarationVisitor`,
  `FindReferencesVisitor`, `FindSymbolsVisitor` (with
  `FindHashtableSymbolsVisitor`) — each a class whose `VisitX` methods
  append to a shared result list and return `Continue` or `StopVisit`.
  Each module also has a pure `Step` function: what one visit appends and
  returns. Every `VisitX` method is proved to do exactly that.
- `Traversal` — the tree's pre-order walk, which stops at the first
  `StopVisit`. It exists as an imperative `Walk` method and as the
  functions `WalkNode`/`WalkChildren`, which are proved equal to a scan of
  the pre-order node list.
- `AstOperations` — the query entry points, proved to return the first hit
  (or every hit) in document order, plus the data-file shape test.
- `SymbolDetails` — the hover text of a symbol.

Text comparisons are simplified. Every case-sensitive `IndexOf` in the
source is culture-sensitive (`StringComparison.CurrentCulture`, or the
default of `IndexOf(string)`). The model searches character by character,
as an ordinal search would. Case-insensitive comparisons use one fixed
ASCII fold. "## Left out" says what this does not capture.

## Model

| member | source | states |
|---|---|---|
| Text.EqualsIgnoreCaseIsEquivalence | src/PowerShellEditorServices.AstVisitors/ReferenceHelperExtensions.cs:94-96 | case-insensitive name equality (`EqualsIgnoreCase`, `PSEquals`) is reflexive, symmetric and transitive |
| Text.EqualsIgnoreCaseIgnoresCase | src/PowerShellEditorServices.AstVisitors/ReferenceHelperExtensions.cs:94-96 | folding either side first does not change whether two names are equal ignoring case |
| Text.IndexOfIgnoreCaseNoLater | src/PowerShellEditorServices.AstVisitors/FindReferencesVisitor.cs:139-140 | when the name occurs case-sensitively, the case-insensitive `IndexOf` finds it at the same index or earlier |
| Text.TrimStart | src/PowerShellEditorServices/Language/FindCommandVisitor.cs:50-54 | `TrimStart()` drops exactly the leading white space: the result is a suffix, everything dropped is white space, and it does not start with white space |
| Text.LeadingBraces | src/PowerShellEditorServices.AstVisitors/FindDeclarationVisitor.cs:29 | the count of leading braces: every character before it is a brace, and the one at it, if any, is not |
| Text.TrailingBracesFrom | src/PowerShellEditorServices.AstVisitors/FindDeclarationVisitor.cs:29 | where the run of braces ending at `hi` begins, going no further left than `lo`: everything from it up to `hi` is a brace, and the character just before it, if past `lo`, is not |
| Text.TrimBraces | src/PowerShellEditorServices.AstVisitors/FindDeclarationVisitor.cs:29 | `Trim('{', '}')` leaves the slice that starts right after the leading braces and is followed only by braces; it neither starts nor ends with a brace |
| Text.TrimBracesOfBraced | src/PowerShellEditorServices.AstVisitors/FindDeclarationVisitor.cs:29 | braces around a name that neither starts nor ends with a brace are trimmed away exactly |
| Text.Lower | src/PowerShellEditorServices.AstVisitors/ReferenceHelperExtensions.cs:94 | the fixed case fold: same length, each character folded by ASCII lower-casing; it distributes over concatenation (`LowerAppend`) and is idempotent (`LowerIdempotent`) |
| Text.EqualsIgnoreCase | src/PowerShellEditorServices.AstVisitors/ReferenceHelperExtensions.cs:94 | `string.Compare(a, b, CurrentCultureIgnoreCase) == 0`: the two names agree after folding; an equivalence that ignores case (`EqualsIgnoreCaseIsEquivalence`, `EqualsIgnoreCaseIgnoresCase`) |
| Text.TrimStartChar | src/PowerShellEditorServices.AstVisitors/FindDeclarationVisitor.cs:29 | `TrimStart('$')`: a suffix of its input that does not start with the character, everything dropped being that character |
| Text.Join | src/PowerShellEditorServices.AstVisitors/MethodSymbolReference.cs:57 | `string.Join`: empty for no parts, the part itself for one, and the two parts around the separator for two |
| Text.JoinAppend | src/PowerShellEditorServices.AstVisitors/MethodSymbolReference.cs:57 | joining one more part appends the separator and that part, so the parts appear in order with one separator between neighbours |
| AstHelpers.InferTypeOf | src/PowerShellEditorServices.AstVisitors/AstHelpers.cs:41 | the first inferred type name, which is always `object` since inference answers `object` for every expression |
| AstHelpers.EnclosingTypeIndex | src/PowerShellEditorServices.AstVisitors/AstHelpers.cs:25-38 | the parent walk finds the innermost type definition among the ancestors, or reports that there is none |
| AstHelpers.MemberClassName | src/PowerShellEditorServices.AstVisitors/AstHelpers.cs:10-39 | owner of a member: the type of a `[T]::M` receiver; the inferred type (`object`) of a receiver other than `$this`; otherwise the innermost enclosing type definition's name, or `""` outside every type definition |
| AstHelpers.GetMemberClassName | src/PowerShellEditorServices.AstVisitors/AstHelpers.cs:10-39 | the loop over the parent chain returns exactly `MemberClassName` |
| AstHelpers.ConstantValue | src/PowerShellEditorServices.AstVisitors/ReferenceHelperExtensions.cs:84-88 | a member's string-constant value, and `null` exactly when the member is not a string constant |
| AstHelpers.GetMemberName | src/PowerShellEditorServices.AstVisitors/AstHelpers.cs:43-69 | string-constant member value of a member expression or call, name of a property member, `""` otherwise |
| MethodCallReference.IsAstAConstructor | src/PowerShellEditorServices.AstVisitors/MethodCallReference.cs:55-58 | a call is a constructor call when it is made on a type expression with a string-constant member equal to `new` ignoring case; `GetSymbolType` is `Constructor` exactly then |
| MethodCallReference.GetSymbolType | src/PowerShellEditorServices.AstVisitors/MethodCallReference.cs:25 | `Constructor` exactly when the call is `new` (any case) on a type receiver, `Method` otherwise |
| MethodCallReference.GetSymbolName | src/PowerShellEditorServices.AstVisitors/MethodCallReference.cs:43-53 | the receiver's type name only for exactly `new` (case-sensitive) with a string-constant member on a type; the member's source text otherwise |
| MethodCallReference.NameExtent | src/PowerShellEditorServices.AstVisitors/MethodCallReference.cs:27-41 | the call's lines, start column = call start + first index of the member name in the call text, width = member name length, text = member's source text |
| MethodCallReference.ArgumentTypes | src/PowerShellEditorServices.AstVisitors/MethodCallReference.cs:14 | one static type name per argument, in order; none for a `null` argument list |
| MethodCallReference.Create | src/PowerShellEditorServices.AstVisitors/MethodCallReference.cs:10-16 | kind, name, region, owner (`GetMemberClassName`), arguments and static flag of a call reference |
| MethodCallReference.IsConstructor | src/PowerShellEditorServices.AstVisitors/MethodCallReference.cs:19 | a call reference is a constructor exactly when its kind is `Constructor`; `ConstructorCallNamesItsType` proves a `[T]::new(...)` call is one |
| MethodCallReference.ConstructorCallNamesItsType | src/PowerShellEditorServices.AstVisitors/MethodCallReference.cs:43-58 | `[T]::new(...)` is a constructor reference named `T` whose owner is `T` |
| MethodCallReference.OtherCasedConstructorKeepsMemberText | src/PowerShellEditorServices.AstVisitors/MethodCallReference.cs:43-58 | `[T]::New(...)` is still a constructor but is named by the member text `New` |
| MethodSymbolReference.NameExtent | src/PowerShellEditorServices.AstVisitors/MethodSymbolReference.cs:40-53 | the member's lines, start = member start + first index of the name, end = member start + name length without the index, text = name |
| MethodSymbolReference.ParameterTypes | src/PowerShellEditorServices.AstVisitors/MethodSymbolReference.cs:18 | one static type name per declared parameter, in order |
| MethodSymbolReference.GetSignatureString | src/PowerShellEditorServices.AstVisitors/MethodSymbolReference.cs:57 | the declared parameters' static type names, in order, joined by `", "`; `GetSignatureName` spells out zero, one and two parameters |
| MethodSymbolReference.GetSignatureName | src/PowerShellEditorServices.AstVisitors/MethodSymbolReference.cs:55-57 | starts with the method name and `(` and ends with `)`; no parameters give `Name()`, one gives `Name(T)`, two give `Name(T, U)` with the parameters' static type names |
| MethodSymbolReference.Create | src/PowerShellEditorServices.AstVisitors/MethodSymbolReference.cs:10-23 | Constructor iff `IsConstructor`, else Method; name, region, owner, parameter types, signature, return type (`""` when none), flags, and the display string equal to the signature name (line 38) |
| MethodSymbolReference.RegionNarrowedByIndex | src/PowerShellEditorServices.AstVisitors/MethodSymbolReference.cs:40-53 | the region is narrower than the name by exactly the index of the name, so it covers the name only when the member text starts with it |
| PropertyCallReference.NameExtent | src/PowerShellEditorServices.AstVisitors/PropertyCallReference.cs:26-38 | the member sub-expression's extent, field by field |
| PropertyCallReference.Create | src/PowerShellEditorServices.AstVisitors/PropertyCallReference.cs:8-17 | a Property reference named by `GetMemberName`, with the member's extent, owner `GetMemberClassName`, return type `""` and the expression's static flag |
| PropertySymbolReference.NameExtent | src/PowerShellEditorServices.AstVisitors/PropertySymbolReference.cs:21-34 | the member's lines, start = member start + first index of the name, width = name length, text = name |
| PropertySymbolReference.Create | src/PowerShellEditorServices.AstVisitors/PropertySymbolReference.cs:8-19 | a Property reference named `Name`, owner = enclosing type, return type = declared type or `object`, static flag copied, display string `ReturnType MemberOfType.Name` |
| PropertySymbolReference.RegionCoversName | src/PowerShellEditorServices.AstVisitors/PropertySymbolReference.cs:21-34 | when the name occurs in the member text, the region covers exactly its first occurrence |
| ClassSymbolReference.NameExtent | src/PowerShellEditorServices.AstVisitors/ClassSymbolReference.cs:12-26 | the expression's lines, start = expression start + index of the name, end = expression start + name length + 1 whatever the index |
| ClassSymbolReference.Create | src/PowerShellEditorServices.AstVisitors/ClassSymbolReference.cs:8 | a Class reference named `TypeName.Name` with that name extent |
| ClassSymbolReference.BracketedRegion | src/PowerShellEditorServices.AstVisitors/ClassSymbolReference.cs:12-26 | for the text `[Name]` the region starts on the name's first letter and is exactly as wide as the name |
| ClassDefinitionSymbolReference.NameExtent | src/PowerShellEditorServices.AstVisitors/ClassDefinitionSymbolReference.cs:12-25 | the definition's lines, start = definition start + index of the name, end = definition start column + definition end column |
| ClassDefinitionSymbolReference.Create | src/PowerShellEditorServices.AstVisitors/ClassDefinitionSymbolReference.cs:8 | a Class reference named by the definition with that name extent |
| ReferenceHelperExtensions.ArgumentCount | src/PowerShellEditorServices.AstVisitors/ReferenceHelperExtensions.cs:97 | a `null` argument list counts as 0, any other as its length |
| ReferenceHelperExtensions.PSEquals | src/PowerShellEditorServices.AstVisitors/ReferenceHelperExtensions.cs:96 | `PSEquals` is case-insensitive equality, the same relation as `EqualsIgnoreCase` |
| ReferenceHelperExtensions.ParameterCount | src/PowerShellEditorServices.AstVisitors/ReferenceHelperExtensions.cs:98 | the number of declared parameters; `ArityDiscrimination` proves that no method reference matches a declaration of another arity |
| ReferenceHelperExtensions.IsMemberOfType | src/PowerShellEditorServices.AstVisitors/ReferenceHelperExtensions.cs:100-103 | a node belongs to a type when the nearest enclosing class's name equals the type name ignoring case, with no enclosing class giving the empty name |
| ReferenceHelperExtensions.ClassReferencesTypeDefinition | src/PowerShellEditorServices.AstVisitors/ReferenceHelperExtensions.cs:8-10 | a class reference of either flavour denotes a type definition of the same name, ignoring case; `ClassReferencesAgree` ties it to the type-expression rule |
| ReferenceHelperExtensions.ClassReferencesTypeExpression | src/PowerShellEditorServices.AstVisitors/ReferenceHelperExtensions.cs:9-11 | a class reference of either flavour denotes a type expression naming the same type, ignoring case |
| ReferenceHelperExtensions.MethodReferencesFunctionMember | src/PowerShellEditorServices.AstVisitors/ReferenceHelperExtensions.cs:13-26 | a method declaration or call denotes a function member through the constructor shortcut (constructor, same arity, same owner), or when static flag, name, arity and owner (`object` matching any) agree; `MethodMatchConditions` and `MethodSymbolReferencesItsDeclaration` state its consequences |
| ReferenceHelperExtensions.MethodSymbolReferencesCall | src/PowerShellEditorServices.AstVisitors/ReferenceHelperExtensions.cs:28-35 | a method declaration denotes a call when static flag, name, arity agree and the owner is `object` or the call's direct parent is a type definition of that name; `MethodSymbolMatchesCallOnlyUnderTypeDefinition` states the owner test |
| ReferenceHelperExtensions.MethodCallReferencesCall | src/PowerShellEditorServices.AstVisitors/ReferenceHelperExtensions.cs:37-43 | a method call denotes a call when static flag, name, arity and owner (`object` matching any) agree; `MethodCallReferencesItsCall` proves a call's own reference matches it |
| ReferenceHelperExtensions.PropertyReferencesPropertyMember | src/PowerShellEditorServices.AstVisitors/ReferenceHelperExtensions.cs:59-81 | a property access or declaration denotes a property member when static flag and name agree and the owner is `object` or matches; `PropertySymbolReferencesItsDeclaration` proves a declaration's own reference matches it |
| ReferenceHelperExtensions.PropertyCallReferencesMemberExpression | src/PowerShellEditorServices.AstVisitors/ReferenceHelperExtensions.cs:67-73 | a property access denotes a member expression when static flag, member name and owner agree; `PropertyCallReferencesItsExpression` proves an access's own reference matches it |
| ReferenceHelperExtensions.PropertySymbolReferencesMemberExpression | src/PowerShellEditorServices.AstVisitors/ReferenceHelperExtensions.cs:82-92 | a property declaration denotes a member expression only through a string-constant member of the same name, with no static test, and a matching owner; `PropertySymbolNeedsConstantMember` states it |
| ReferenceHelperExtensions.ArityDiscrimination | src/PowerShellEditorServices.AstVisitors/ReferenceHelperExtensions.cs:13-57 | a method reference never matches a declaration or call whose parameter or argument count differs from its own, shortcut included |
| ReferenceHelperExtensions.MethodMatchConditions | src/PowerShellEditorServices.AstVisitors/ReferenceHelperExtensions.cs:13-26 | outside the constructor shortcut a match needs equal static flags, names equal ignoring case, equal arity and a wildcard or equal owner; the shortcut alone suffices |
| ReferenceHelperExtensions.ClassReferencesAgree | src/PowerShellEditorServices.AstVisitors/ReferenceHelperExtensions.cs:10-11 | a class definition references a type expression iff the expression's reference references the definition; each references itself |
| ReferenceHelperExtensions.MethodSymbolReferencesItsDeclaration | src/PowerShellEditorServices.AstVisitors/ReferenceHelperExtensions.cs:13-26 | a method declaration's own reference references it |
| ReferenceHelperExtensions.PropertySymbolReferencesItsDeclaration | src/PowerShellEditorServices.AstVisitors/ReferenceHelperExtensions.cs:75-81 | a property declaration's own reference references it |
| ReferenceHelperExtensions.PropertyCallReferencesItsExpression | src/PowerShellEditorServices.AstVisitors/ReferenceHelperExtensions.cs:67-73 | a property access's own reference references it |
| ReferenceHelperExtensions.MethodCallReferencesItsCall | src/PowerShellEditorServices.AstVisitors/ReferenceHelperExtensions.cs:37-43 | a call whose member text spells its name, and that is not `[T]::new`, is referenced by its own reference |
| ReferenceHelperExtensions.ConstructorCallMissesItself | src/PowerShellEditorServices.AstVisitors/ReferenceHelperExtensions.cs:37-43 | `[T]::new(...)` is named `T` while its member name is `new`, so it does not reference itself |
| ReferenceHelperExtensions.ConstructorCallFindsConstructor | src/PowerShellEditorServices.AstVisitors/ReferenceHelperExtensions.cs:44-51 | `[T]::new(...)` references every constructor of a class named `T` with as many parameters as it has arguments |
| ReferenceHelperExtensions.MethodSymbolMatchesCallOnlyUnderTypeDefinition | src/PowerShellEditorServices.AstVisitors/ReferenceHelperExtensions.cs:28-35 | a method declaration with a real owner matches no call whose direct parent is not a type definition |
| ReferenceHelperExtensions.PropertySymbolNeedsConstantMember | src/PowerShellEditorServices.AstVisitors/ReferenceHelperExtensions.cs:82-92 | a property declaration matches no member expression whose member is not a string constant |
| FindSymbolVisitor.FunctionNameExtent | src/PowerShellEditorServices.AstVisitors/FindSymbolVisitor.cs:67-90 | on the definition's start line, from column 1 (with `includeFunctionDefinitions`) or the case-insensitive index of the name + 1, as wide as the name |
| FindSymbolVisitor.IsPositionInExtent | src/PowerShellEditorServices.AstVisitors/FindSymbolVisitor.cs:222-228 | an extent holds the cursor when it starts on the cursor's line at or before its column and ends on a later line or at or after its column |
| FindSymbolVisitor.Step | src/PowerShellEditorServices.AstVisitors/FindSymbolVisitor.cs:45-220 | one visit: a command, function name, parameter, variable, type, property or method declaration under the cursor is appended and stops the walk; a member access or method call under the cursor is appended and the walk goes on. `StepOnCursorLine`, `StepRegionCoversCursor` and `OnlyMembersGoOnAfterHit` state its properties |
| FindSymbolVisitor.StepOnCursorLine | src/PowerShellEditorServices.AstVisitors/FindSymbolVisitor.cs:45-215 | a visit appends at most one reference, stops only after appending one, and what it appends starts on the cursor's line |
| FindSymbolVisitor.StepRegionCoversCursor | src/PowerShellEditorServices.AstVisitors/FindSymbolVisitor.cs:222-228 | plain references and property accesses it appends contain the cursor by the containment test |
| FindSymbolVisitor.OnlyMembersGoOnAfterHit | src/PowerShellEditorServices.AstVisitors/FindSymbolVisitor.cs:182-215 | after a hit the walk goes on exactly for member expressions and method calls; every other hit stops it |
| FindSymbolVisitor.TypeDefinitionHitOutsideName | src/PowerShellEditorServices.AstVisitors/FindSymbolVisitor.cs:134-144 | a cursor on the first character of a one-line class, ahead of the class name, stops the walk with the class reference although that reference's name region does not contain the cursor |
| FindSymbolVisitor.FindSymbolVisitor.VisitCommand | src/PowerShellEditorServices.AstVisitors/FindSymbolVisitor.cs:45-59 | appends and returns what `Step` prescribes for a command |
| FindSymbolVisitor.FindSymbolVisitor.VisitFunctionDefinition | src/PowerShellEditorServices.AstVisitors/FindSymbolVisitor.cs:67-96 | appends and returns what `Step` prescribes for a function definition |
| FindSymbolVisitor.FindSymbolVisitor.VisitCommandParameter | src/PowerShellEditorServices.AstVisitors/FindSymbolVisitor.cs:104-114 | appends and returns what `Step` prescribes for a command parameter |
| FindSymbolVisitor.FindSymbolVisitor.VisitVariableExpression | src/PowerShellEditorServices.AstVisitors/FindSymbolVisitor.cs:122-132 | appends and returns what `Step` prescribes for a variable |
| FindSymbolVisitor.FindSymbolVisitor.VisitTypeDefinition | src/PowerShellEditorServices.AstVisitors/FindSymbolVisitor.cs:134-144 | appends and returns what `Step` prescribes for a type definition |
| FindSymbolVisitor.FindSymbolVisitor.VisitTypeExpression | src/PowerShellEditorServices.AstVisitors/FindSymbolVisitor.cs:146-156 | appends and returns what `Step` prescribes for a type expression |
| FindSymbolVisitor.FindSymbolVisitor.VisitPropertyMember | src/PowerShellEditorServices.AstVisitors/FindSymbolVisitor.cs:158-168 | appends and returns what `Step` prescribes for a property member |
| FindSymbolVisitor.FindSymbolVisitor.VisitFunctionMember | src/PowerShellEditorServices.AstVisitors/FindSymbolVisitor.cs:170-180 | appends and returns what `Step` prescribes for a function member: inside its extent but not its body |
| FindSymbolVisitor.FindSymbolVisitor.VisitMemberExpression | src/PowerShellEditorServices.AstVisitors/FindSymbolVisitor.cs:182-193 | appends and returns what `Step` prescribes for a member expression |
| FindSymbolVisitor.FindSymbolVisitor.VisitInvokeMemberExpression | src/PowerShellEditorServices.AstVisitors/FindSymbolVisitor.cs:195-215 | appends and returns what `Step` prescribes for a method call |
| FindCommandVisitor.TrueEndColumn | src/PowerShellEditorServices/Language/FindCommandVisitor.cs:37-57 | within the line: one past the white space that follows the command's end, which ends at the line's end or at a non-blank; otherwise the end column unchanged |
| FindCommandVisitor.FirstHit | src/PowerShellEditorServices/Language/FindCommandVisitor.cs:35-67 | the first pipeline element that is a command holding the cursor, with none before it; none when no element holds it |
| FindCommandVisitor.Step | src/PowerShellEditorServices/Language/FindCommandVisitor.cs:30-70 | one visit: a pipeline on the cursor's line whose first command holding the cursor exists appends that command's name as a `Function` and stops; anything else goes on. `StepFindsCommandName` states it |
| FindCommandVisitor.StepFindsCommandName | src/PowerShellEditorServices/Language/FindCommandVisitor.cs:30-73 | a visit finds something iff it is a pipeline on the cursor's line with a command holding the cursor; it then appends that command's name as a Function and stops; otherwise it goes on |
| FindCommandVisitor.TrueEndSkipsBlanks | src/PowerShellEditorServices/Language/FindCommandVisitor.cs:50-56 | a command followed by `blanks` white-space characters reaches `end + blanks + 1` |
| FindCommandVisitor.FindCommandVisitor.VisitPipeline | src/PowerShellEditorServices/Language/FindCommandVisitor.cs:30-73 | the loop over the elements appends and returns exactly what `Step` prescribes |
| FindDeclarationVisitor.VariableName | src/PowerShellEditorServices.AstVisitors/FindDeclarationVisitor.cs:26-30 | set exactly for a Variable reference, to its name without leading `$` and surrounding braces |
| FindDeclarationVisitor.FunctionNameExtent | src/PowerShellEditorServices.AstVisitors/FindDeclarationVisitor.cs:50-61 | on the definition's start line, from the case-sensitive index of the name + 1, as wide as the name |
| FindDeclarationVisitor.Step | src/PowerShellEditorServices.AstVisitors/FindDeclarationVisitor.cs:46-170 | one visit: a function definition, assignment, class, property or method declaration matching the symbol is appended and stops the walk; everything else goes on. `StepFindsOneOfSameKind`, `OtherKindsFindNothing`, `FunctionFoundByRegionText` and `StepOnAssignment` state its properties |
| FindDeclarationVisitor.StepFindsOneOfSameKind | src/PowerShellEditorServices.AstVisitors/FindDeclarationVisitor.cs:46-171 | a visit appends nothing and goes on, or appends one declaration of the symbol's kind (a constructor for a method) and stops |
| FindDeclarationVisitor.OtherKindsFindNothing | src/PowerShellEditorServices.AstVisitors/FindDeclarationVisitor.cs:46-171 | symbols that are not functions, variables, classes, properties or methods have no declaration |
| FindDeclarationVisitor.FunctionFoundByRegionText | src/PowerShellEditorServices.AstVisitors/FindDeclarationVisitor.cs:46-70 | a function definition matches iff its name equals the reference's region text ignoring case |
| FindDeclarationVisitor.DollarNameIsBare | src/PowerShellEditorServices.AstVisitors/FindDeclarationVisitor.cs:26-30 | `$name` searches for `name` |
| FindDeclarationVisitor.BracedNameIsBare | src/PowerShellEditorServices.AstVisitors/FindDeclarationVisitor.cs:26-30 | `${name}` searches for `name` |
| FindDeclarationVisitor.StepOnAssignment | src/PowerShellEditorServices.AstVisitors/FindDeclarationVisitor.cs:79-95 | an assignment to a variable is found iff the search has a bare name and the left side's `UserPath` equals it ignoring case, and what is found is the left side as a Variable |
| FindDeclarationVisitor.AssignmentFoundByBareName | src/PowerShellEditorServices.AstVisitors/FindDeclarationVisitor.cs:79-95 | an assignment matches iff its left side's `UserPath` equals the bare name ignoring case, and then yields the left side as a Variable |
| FindDeclarationVisitor.MethodDefinitionAnswersFunction | src/PowerShellEditorServices.AstVisitors/FindDeclarationVisitor.cs:46-67 | a `Function` symbol whose text is a class method's name passes the method itself and stops at the method's hidden function definition, reporting its name region as a `Function` |
| FindDeclarationVisitor.FindDeclarationVisitor.VisitFunctionDefinition | src/PowerShellEditorServices.AstVisitors/FindDeclarationVisitor.cs:46-70 | appends and returns what `Step` prescribes for a function definition |
| FindDeclarationVisitor.FindDeclarationVisitor.VisitAssignmentStatement | src/PowerShellEditorServices.AstVisitors/FindDeclarationVisitor.cs:79-95 | appends and returns what `Step` prescribes for an assignment |
| FindDeclarationVisitor.FindDeclarationVisitor.VisitTypeDefinition | src/PowerShellEditorServices.AstVisitors/FindDeclarationVisitor.cs:97-114 | appends and returns what `Step` prescribes for a type definition |
| FindDeclarationVisitor.FindDeclarationVisitor.VisitPropertyMember | src/PowerShellEditorServices.AstVisitors/FindDeclarationVisitor.cs:116-142 | appends and returns what `Step` prescribes for a property member |
| FindDeclarationVisitor.FindDeclarationVisitor.VisitFunctionMember | src/PowerShellEditorServices.AstVisitors/FindDeclarationVisitor.cs:144-171 | appends and returns what `Step` prescribes for a function member |
| FindReferencesVisitor.AliasesOf | src/PowerShellEditorServices.AstVisitors/FindReferencesVisitor.cs:95 | a command's alias list, empty when the dictionary has no entry |
| FindReferencesVisitor.CmdletOf | src/PowerShellEditorServices.AstVisitors/FindReferencesVisitor.cs:96 | an alias's cmdlet, `""` when the dictionary has no entry |
| FindReferencesVisitor.ConfigWithAliases | src/PowerShellEditorServices.AstVisitors/FindReferencesVisitor.cs:32-50 | the alias-aware settings: the symbol, both dictionaries, and the symbol's cmdlet |
| FindReferencesVisitor.FunctionNameExtent | src/PowerShellEditorServices.AstVisitors/FindReferencesVisitor.cs:139-149 | a single-line region from the case-insensitive index of the name + 1, as wide as the name |
| FindReferencesVisitor.Step | src/PowerShellEditorServices.AstVisitors/FindReferencesVisitor.cs:77-346 | one visit: a command (through aliases when they are on), function name, parameter, variable, type expression, member access, call, property or method declaration matching the symbol is appended, and the walk always goes on. `StepKeepsKind`, `CommandFoundByName` and `AliasesOnlyAdd` state its properties |
| FindReferencesVisitor.StepKeepsKind | src/PowerShellEditorServices.AstVisitors/FindReferencesVisitor.cs:77-347 | a visit never stops, appends at most one reference, and for a well-kinded symbol what it appends is well-kinded and of the symbol's kind |
| FindReferencesVisitor.ClassSymbolMatchesNoCall | src/PowerShellEditorServices.AstVisitors/FindReferencesVisitor.cs:259-284 | a class symbol passes the call prefilter but never yields a reference there |
| FindReferencesVisitor.CommandFoundByName | src/PowerShellEditorServices.AstVisitors/FindReferencesVisitor.cs:117-124 | without aliases a command is found iff its name equals the symbol's ignoring case, as a Function with the name's extent |
| FindReferencesVisitor.AliasesOnlyAdd | src/PowerShellEditorServices.AstVisitors/FindReferencesVisitor.cs:88-124 | everything found without aliases is found with them; only commands can differ |
| FindReferencesVisitor.CmdletFoundFromAlias | src/PowerShellEditorServices.AstVisitors/FindReferencesVisitor.cs:103-106 | a command whose alias list holds the lower-cased symbol text is found |
| FindReferencesVisitor.SiblingAliasFound | src/PowerShellEditorServices.AstVisitors/FindReferencesVisitor.cs:103-106 | two aliases of the same non-empty cmdlet find each other |
| FindReferencesVisitor.MethodDefinitionIsFunctionReference | src/PowerShellEditorServices.AstVisitors/FindReferencesVisitor.cs:135-158 | a `Function` symbol named like a class method passes the method and collects its hidden function definition's name region as a `Function` reference |
| FindReferencesVisitor.FindReferencesVisitor.WithAliases | src/PowerShellEditorServices.AstVisitors/FindReferencesVisitor.cs:32-50 | the visitor's settings are `ConfigWithAliases` of its arguments |
| FindReferencesVisitor.FindReferencesVisitor.constructor | src/PowerShellEditorServices.AstVisitors/FindReferencesVisitor.cs:63-68 | the visitor's settings ignore aliases |
| FindReferencesVisitor.FindReferencesVisitor.VisitCommand | src/PowerShellEditorServices.AstVisitors/FindReferencesVisitor.cs:77-127 | appends and returns what `Step` prescribes for a command, alias logic included |
| FindReferencesVisitor.FindReferencesVisitor.VisitFunctionDefinition | src/PowerShellEditorServices.AstVisitors/FindReferencesVisitor.cs:135-159 | appends and returns what `Step` prescribes for a function definition |
| FindReferencesVisitor.FindReferencesVisitor.VisitCommandParameter | src/PowerShellEditorServices.AstVisitors/FindReferencesVisitor.cs:167-177 | appends and returns what `Step` prescribes for a command parameter |
| FindReferencesVisitor.FindReferencesVisitor.VisitVariableExpression | src/PowerShellEditorServices.AstVisitors/FindReferencesVisitor.cs:185-195 | appends and returns what `Step` prescribes for a variable |
| FindReferencesVisitor.FindReferencesVisitor.VisitTypeExpression | src/PowerShellEditorServices.AstVisitors/FindReferencesVisitor.cs:197-231 | appends and returns what `Step` prescribes for a type expression |
| FindReferencesVisitor.FindReferencesVisitor.VisitMemberExpression | src/PowerShellEditorServices.AstVisitors/FindReferencesVisitor.cs:233-257 | appends and returns what `Step` prescribes for a member expression |
| FindReferencesVisitor.FindReferencesVisitor.VisitInvokeMemberExpression | src/PowerShellEditorServices.AstVisitors/FindReferencesVisitor.cs:259-284 | appends and returns what `Step` prescribes for a method call |
| FindReferencesVisitor.FindReferencesVisitor.VisitPropertyMember | src/PowerShellEditorServices.AstVisitors/FindReferencesVisitor.cs:286-315 | appends and returns what `Step` prescribes for a property member |
| FindReferencesVisitor.FindReferencesVisitor.VisitFunctionMember | src/PowerShellEditorServices.AstVisitors/FindReferencesVisitor.cs:317-347 | appends and returns what `Step` prescribes for a function member |
| FindSymbolsVisitor.FunctionSymbol | src/PowerShellEditorServices.AstVisitors/FindSymbolsVisitor.cs:44-56 | Workflow iff `IsWorkflow`, else Function; the region spans the whole definition with the name as its text |
| FindSymbolsVisitor.Step | src/PowerShellEditorServices.AstVisitors/FindSymbolsVisitor.cs:38-96 | one visit: a class, method, property, function not directly under a class member, or variable assigned at script scope is appended, and the walk always goes on. `StepCollectsDeclarations` and `TopLevelAssignmentOnly` state its properties |
| FindSymbolsVisitor.StepCollectsDeclarations | src/PowerShellEditorServices.AstVisitors/FindSymbolsVisitor.cs:38-113 | a visit appends one well-kinded reference exactly for a declaration (class, method, property, function not under a class member, top-level assigned variable) and always goes on |
| FindSymbolsVisitor.TopLevelAssignmentOnly | src/PowerShellEditorServices.AstVisitors/FindSymbolsVisitor.cs:98-113 | a variable assigned by a script's top-level statement is reported; one any deeper is not |
| FindSymbolsVisitor.MethodCollectedOnce | src/PowerShellEditorServices.AstVisitors/FindSymbolsVisitor.cs:38-43 | a class method is collected once, as a method reference, and its hidden function definition, whose parent is the method, collects nothing |
| FindSymbolsVisitor.KeyReference | src/PowerShellEditorServices.AstVisitors/FindSymbolsVisitor.cs:148-159 | a HashtableKey named by the key's value, from the key's start to the value's end |
| FindSymbolsVisitor.KeyReferences | src/PowerShellEditorServices.AstVisitors/FindSymbolsVisitor.cs:144-162 | the key references of the entries with string-constant keys, in entry order; `KeyReferencesOfKeys` and `KeyReferencesAppend` state it |
| FindSymbolsVisitor.HashtableStep | src/PowerShellEditorServices.AstVisitors/FindSymbolsVisitor.cs:137-165 | one visit: a hashtable appends its key references (none for a `null` pair list), and the walk always goes on; `HashtableStepFindsKeys` states it |
| FindSymbolsVisitor.KeyReferencesOfKeys | src/PowerShellEditorServices.AstVisitors/FindSymbolsVisitor.cs:139-162 | exactly the key references of the entries with string-constant keys, no more than the entries |
| FindSymbolsVisitor.KeyReferencesAppend | src/PowerShellEditorServices.AstVisitors/FindSymbolsVisitor.cs:144-162 | key references keep entry order: those of `a + b` are those of `a`, then those of `b` |
| FindSymbolsVisitor.FindSymbolsVisitor.VisitFunctionDefinition | src/PowerShellEditorServices.AstVisitors/FindSymbolsVisitor.cs:38-59 | appends and returns what `Step` prescribes for a function definition |
| FindSymbolsVisitor.FindSymbolsVisitor.VisitVariableExpression | src/PowerShellEditorServices.AstVisitors/FindSymbolsVisitor.cs:67-76 | appends and returns what `Step` prescribes for a variable |
| FindSymbolsVisitor.FindSymbolsVisitor.VisitTypeDefinition | src/PowerShellEditorServices.AstVisitors/FindSymbolsVisitor.cs:78-82 | appends the class definition and goes on |
| FindSymbolsVisitor.FindSymbolsVisitor.VisitFunctionMember | src/PowerShellEditorServices.AstVisitors/FindSymbolsVisitor.cs:84-89 | appends the method declaration and goes on |
| FindSymbolsVisitor.FindSymbolsVisitor.VisitPropertyMember | src/PowerShellEditorServices.AstVisitors/FindSymbolsVisitor.cs:91-96 | appends the property declaration and goes on |
| FindSymbolsVisitor.FindSymbolsVisitor.IsAssignedAtScriptScope | src/PowerShellEditorServices.AstVisitors/FindSymbolsVisitor.cs:98-113 | the parent walk answers: the parent is an assignment with no great-grandparent |
| FindSymbolsVisitor.FindHashtableSymbolsVisitor.VisitHashtable | src/PowerShellEditorServices.AstVisitors/FindSymbolsVisitor.cs:137-165 | the loop over the entries appends exactly `KeyReferences` of them, nothing for a `null` list, and goes on |
| Traversal.WalkNode | src/PowerShellEditorServices/Language/AstOperations.cs:161 | `Visit` on a subtree: the node's visit, then its children's walks in order, ending at the first `StopVisit`; `WalkIsScan` proves it a scan of the pre-order visits |
| Traversal.Effects | src/PowerShellEditorServices/Language/AstOperations.cs:161 | one visit per node, in the order given: the `i`-th effect is what visiting the `i`-th node appends and returns |
| Traversal.EffectsAppend | src/PowerShellEditorServices/Language/AstOperations.cs:161 | the visits of two runs of nodes, one after the other, are the visits of the first run followed by those of the second |
| Traversal.WalkIsScan | src/PowerShellEditorServices/Language/AstOperations.cs:161 | the recursive walk equals a left-to-right scan of the visits of the nodes in pre-order, stopping at the first `StopVisit` |
| Traversal.FirstFoundIsFirst | src/PowerShellEditorServices/Language/AstOperations.cs:163 | the first reference any visit appends in pre-order, with no earlier visit appending anything; none iff no visit appends |
| Traversal.ScanFirst | src/PowerShellEditorServices/Language/AstOperations.cs:161-163 | when only hits stop the walk, `FirstOrDefault` of the result list is the first hit in pre-order |
| Traversal.ScanWithoutStop | src/PowerShellEditorServices/Language/AstOperations.cs:204-206 | a walk with no `StopVisit` keeps everything every visit appends, in order |
| Traversal.ScanAtMostOne | src/PowerShellEditorServices/Language/AstOperations.cs:244-246 | when every hit appends one reference and stops, the result list holds at most one |
| Traversal.ScanFoundComesFromVisits | src/PowerShellEditorServices/Language/AstOperations.cs:204-206 | every reference in the result list was appended by some visit |
| Traversal.Walk | src/PowerShellEditorServices/Language/AstOperations.cs:161 | `Visit` on a subtree appends exactly what `WalkNode` finds and reports whether the walk stopped |
| AstOperations.SymbolAtPositionOf | src/PowerShellEditorServices/Language/AstOperations.cs:148-164 | the first entry of what the symbol visitor's walk appends, or none; `SymbolAtPositionIsFirstHit` characterises it |
| AstOperations.CommandAtPositionOf | src/PowerShellEditorServices/Language/AstOperations.cs:173-180 | the first entry of what the command visitor's walk appends, or none; `CommandAtPositionIsFirstHit` characterises it |
| AstOperations.ReferencesOf | src/PowerShellEditorServices/Language/AstOperations.cs:190-229 | everything the reference visitor's walk appends; `ReferencesAreAllOfSameKind` and `AliasesOnlyAddReferences` characterise it |
| AstOperations.DefinitionOf | src/PowerShellEditorServices/Language/AstOperations.cs:237-247 | the first entry of what the declaration visitor's walk appends, or none; `DefinitionIsFirstDeclaration` characterises it |
| AstOperations.SymbolsInDocumentOf | src/PowerShellEditorServices/Language/AstOperations.cs:255-273 | everything the document-symbol visitor's walk appends; `SymbolsInDocumentAreDeclarations` characterises it |
| AstOperations.FindSymbolAtPosition | src/PowerShellEditorServices/Language/AstOperations.cs:148-164 | the first reference the symbol visitor appends over the walk, or none |
| AstOperations.FindCommandAtPosition | src/PowerShellEditorServices/Language/AstOperations.cs:173-180 | the first reference the command visitor appends over the walk, or none |
| AstOperations.FindReferencesOfSymbolWithAliases | src/PowerShellEditorServices/Language/AstOperations.cs:190-207 | the whole list the alias-aware reference visitor appends |
| AstOperations.FindReferencesOfSymbol | src/PowerShellEditorServices/Language/AstOperations.cs:218-229 | the whole list the plain reference visitor appends; `needsAliases` is ignored |
| AstOperations.FindDefinitionOfSymbol | src/PowerShellEditorServices/Language/AstOperations.cs:237-247 | the first reference the declaration visitor appends, or none |
| AstOperations.FindSymbolsInDocument | src/PowerShellEditorServices/Language/AstOperations.cs:255-273 | the whole list the document-symbol visitor appends |
| AstOperations.SymbolAtPositionIsFirstHit | src/PowerShellEditorServices/Language/AstOperations.cs:148-164 | the symbol at the cursor is the first hit in document order, starts on the cursor's line, and covers the cursor when it is a plain reference or property access |
| AstOperations.CommandAtPositionIsFirstHit | src/PowerShellEditorServices/Language/AstOperations.cs:173-180 | the command at the cursor is the first hit in document order; one exists iff some pipeline on the cursor's line has a command holding the cursor, and it is that command's name; the list holds at most one |
| AstOperations.DeclarationStep | src/PowerShellEditorServices.AstVisitors/FindDeclarationVisitor.cs:46-170 | in the declaration walk a visit appends nothing and goes on, or appends one declaration of the symbol's kind (a constructor for a method) and stops |
| AstOperations.DefinitionIsFirstDeclaration | src/PowerShellEditorServices/Language/AstOperations.cs:237-247 | the definition is the first accepted declaration in document order, of the symbol's kind (or a constructor for a method); the list holds at most one |
| AstOperations.DefinitionStopsAtMethodDefinition | src/PowerShellEditorServices/Language/AstOperations.cs:237-247 | in a script with a class holding method `M` followed by a function `M`, the definition of `M` is the method's hidden function definition, found first, not the script function |
| AstOperations.WalkCollectsAll | src/PowerShellEditorServices/Language/AstOperations.cs:190-229 | a visitor that never stops collects exactly what each visit appends over the whole tree |
| AstOperations.ReferencesStep | src/PowerShellEditorServices.AstVisitors/FindReferencesVisitor.cs:77-346 | in the reference walk every visit goes on, and appends only well-kinded references of the symbol's kind |
| AstOperations.ReferencesAreAllOfSameKind | src/PowerShellEditorServices/Language/AstOperations.cs:190-229 | the references are everything the visits append, each well-kinded and of the symbol's kind |
| AstOperations.FoundAllWithAliases | src/PowerShellEditorServices/Language/AstOperations.cs:190-229 | over any run of visits, each reference found without aliases is found with them |
| AstOperations.AliasesOnlyAddReferences | src/PowerShellEditorServices/Language/AstOperations.cs:190-229 | the alias-aware search finds every reference the plain search finds |
| AstOperations.ReferencesIncludeMethodDefinition | src/PowerShellEditorServices/Language/AstOperations.cs:190-229 | in the same script the references to function `M` are the method's hidden definition, then the script function, in document order |
| AstOperations.DocumentSymbolsStep | src/PowerShellEditorServices.AstVisitors/FindSymbolsVisitor.cs:38-96 | in the document-symbol walk every visit goes on, and appends only well-kinded symbols of the declaration it visits |
| AstOperations.SymbolsInDocumentAreDeclarations | src/PowerShellEditorServices/Language/AstOperations.cs:255-273 | the document's symbols are everything the collector appends over the tree, each well-kinded and appended by a declaration's visit |
| AstOperations.MethodListedOnce | src/PowerShellEditorServices/Language/AstOperations.cs:255-273 | in the same script the document's symbols are exactly the class, its method once, and the script function |
| AstOperations.HashtableKeysStep | src/PowerShellEditorServices.AstVisitors/FindSymbolsVisitor.cs:137-165 | in the hashtable-key walk every visit goes on, and appends only `HashtableKey` references |
| AstOperations.HashtableKeysAreAllFound | src/PowerShellEditorServices.AstVisitors/FindSymbolsVisitor.cs:137-165 | the hashtable-key walk never stops and keeps every key symbol of every hashtable, each a HashtableKey |
| AstOperations.MatchesFromLevel | src/PowerShellEditorServices/Language/AstOperations.cs:296-327 | a node has the level's type and, below the last level, some direct child matches the next level; `DataFileIsChain` unfolds it into the five-level chain |
| AstOperations.IsPowerShellDataFileAst | src/PowerShellEditorServices/Language/AstOperations.cs:280-294 | true exactly when the tree has a data file's shape |
| AstOperations.IsPowerShellDataFileAstNode | src/PowerShellEditorServices/Language/AstOperations.cs:296-327 | the recursive search over direct children answers `MatchesFromLevel`: wrong type gives false, the last level gives true, else some child must match the next level |
| AstOperations.DataFileIsChain | src/PowerShellEditorServices/Language/AstOperations.cs:280-327 | a data file is exactly a script block with a named block child, holding a pipeline child, holding a command expression whose expression is a hashtable |
| AstOperations.ManifestIsDataFile | src/PowerShellEditorServices/Language/AstOperations.cs:280-294 | a script whose only statement is a hashtable literal is a data file |
| AstOperations.CommandScriptIsNotDataFile | src/PowerShellEditorServices/Language/AstOperations.cs:280-294 | a script whose pipeline runs a command is not a data file |
| Symbols.DisplayString | src/PowerShellEditorServices.AstVisitors/PropertySymbolReference.cs:19 | a property declaration shows its type, owner and name (`T Owner.Name`); a method declaration shows its signature name (MethodSymbolReference.cs line 38); every other reference shows its name. `MethodDeclarationShowsSignature` and `PropertyDeclarationShowsTypeAndOwner` state it |
| SymbolDetails.Create | src/PowerShellEditorServices/Language/SymbolDetails.cs:41-114 | the details keep the symbol, and carry a display string exactly for variables, functions, parameters, classes, methods and properties |
| SymbolDetails.NamedKindsShowPrefixAndName | src/PowerShellEditorServices/Language/SymbolDetails.cs:51-100 | variables, functions, parameters and classes show their name after a prefix: none, `function ` or `(application) `, `(parameter) `, `(class) ` |
| SymbolDetails.OnlyApplicationsDiffer | src/PowerShellEditorServices/Language/SymbolDetails.cs:56-84 | a missing command and a non-application command give the same details; an application only swaps `function ` for `(application) ` |
| SymbolDetails.MethodDeclarationShowsSignature | src/PowerShellEditorServices/Language/SymbolDetails.cs:101-108 | a method declaration shows `Name(T, U)`; a constructor shows nothing |
| SymbolDetails.PropertyDeclarationShowsTypeAndOwner | src/PowerShellEditorServices/Language/SymbolDetails.cs:104-106 | a property declaration shows `T Owner.Name` |
| Text.IndexOf | src/PowerShellEditorServices.AstVisitors/MethodSymbolReference.cs:43 | the case-sensitive `IndexOf(name, StringComparison.CurrentCulture)`, modelled as a character-by-character search: -1 exactly when the text does not occur, otherwise the index of its first occurrence |
| Text.IndexOfIgnoreCase | src/PowerShellEditorServices.AstVisitors/FindSymbolVisitor.cs:73-74 | the same search after lower-casing both sides: -1 iff absent, otherwise the first occurrence |
| Text.IndexOfFirstOccurrence | src/PowerShellEditorServices.AstVisitors/ClassSymbolReference.cs:16 | whatever index is the first occurrence is the one `IndexOf` returns |
| Text.TrimBracesOfUnbraced | src/PowerShellEditorServices.AstVisitors/FindDeclarationVisitor.cs:29 | a name that neither starts nor ends with a brace passes through the trim unchanged |
| FindDeclarationVisitor.FindDeclarationVisitor.constructor | src/PowerShellEditorServices.AstVisitors/FindDeclarationVisitor.cs:22-31 | the visitor holds the symbol and, for a variable, its bare name |

## Left out

- Parsing: the syntax tree is an input; the parser is not part of this model. The order in which the tree's own `Visit` enters a node's children is taken to be the order of `Children`.
- `AstOperations.GetCompletions` and `FindDotSourcedIncludes`: the completion engine runs a PowerShell pipeline on a runspace, and dot-source discovery belongs to a visitor outside this core.
- The visitor factories and the PowerShell 5 specific operations: they only choose which visitor class is created.
- Type inference: `AstHelpers.InferTypeOf` is modelled as the inferer's fixed answer `object`; the reflection-based inferer it calls is not part of this model.
- `SymbolDetails.Create`: the command lookup `GetCommandInfo` runs PowerShell and becomes the `CommandInfo` input; the documentation lookup (`GetCommandSynopsis`) and the `Documentation` field are not modelled.
- `FindSymbolsInDocument`: the unused `powerShellVersion` parameter is omitted. `FindReferencesOfSymbol` keeps `needsAliases` but ignores it, as the source does.
- `FindCommandVisitor.IsPositionInExtent`: the source declares it but never calls it.
- Text.EqualsIgnoreCase: culture-sensitive case folding is modelled as fixed ASCII lower-casing, so names differing only in non-ASCII case are treated as different.
- Text.IndexOf: the case-sensitive searches use the current culture (`StringComparison.CurrentCulture`, or the culture-sensitive default of `IndexOf(string)`). The model searches character by character, as an ordinal search would. A culture-aware search can match text an ordinal one does not, for example across ignorable characters such as U+00AD, the soft hyphen.
- Text.IndexOfIgnoreCase: culture-sensitive comparison is modelled as ordinal comparison after ASCII lower-casing.
- Integer widths: line and column numbers are unbounded integers. The source's 32-bit arithmetic cannot overflow on a real script.
- FindCommandVisitor.TrueEndColumn: for a negative end column the source's `Substring` call would throw; the model returns the extent unchanged instead. For other end columns the model follows the source's branches, including leaving the column as it is when it lies past the line's end, with columns counted as described in the next line.
- Column arithmetic: a string here is a sequence of Unicode scalar values, while .NET strings, and the parser's column numbers, count UTF-16 code units. On a line holding a character outside the Basic Multilingual Plane (an emoji, say), the source counts two units where the model counts one, so every column and length derived from text after it differs by one per such character: `FindCommandVisitor.TrueEndColumn`, the `IndexOf + 1` name columns of the `FunctionNameExtent` functions of the three visitors, and the `NameExtent` functions of the reference modules. On text inside the Basic Multilingual Plane the two counts agree.
- Alias dictionaries are maps with exact keys; the `null` dictionaries of the constructor without aliases are modelled as empty maps and an empty cmdlet name.
- MethodCallReference.ArgumentTypes: an argument's static type is reduced to `System.String` for a string constant and `System.Object` otherwise; a parameter without a declared type is an `Object`.
- A function definition's parameter list is a plain sequence here; the `null` list of a function declared without a parameter block is the empty sequence.
- Ast.MethodName, Ast.MethodParameters, Ast.MethodBody: the parser always gives a class method a function definition; for a `FunctionMember` value built with any other node these read an empty name, no parameters and that node as the body. Attributes and parameter type constraints are not nodes of this model, so the walk does not enter them.
- PropertyCallReference.Create: a `null` owner (nothing inferred) is modelled as the empty string. Since inference answers `object`, this case does not arise.
- Symbols.DisplayString: the base reference's display string is taken to be the symbol name unless the reference class sets its own.
- AstOperations.IsPowerShellDataFileAstNode: the `FindAll` search over all descendants is modelled as a loop over the node's direct children. Only found nodes whose parent is the node are kept, and those are exactly its direct children.
- Concurrency, cancellation, logging and the language-server message layer around these queries are not modelled.
