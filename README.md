# iterm2-api, modelled in Dafny

iterm2-api is a Rust client for the iTerm2 terminal's scripting API plus three
helper programs. This project models the decision logic of each part and
proves properties of it.

- **The client library** (`src/connection.rs`, `src/error.rs`, `src/auth.rs`).
  It opens a WebSocket over iTerm2's Unix domain socket. Each operation
  (create a window or a tab, send text, list sessions, get windows) writes one
  protobuf-encoded request frame and reads one response frame. The response
  tag and status then decide the typed result or the `Error`.
  `ITerm2Connection` is a class whose `inbox` holds the frames the socket will
  still deliver and whose `outbox` logs the messages written. The protobuf
  codec is a pair of given functions. `connect`'s platform answers (home
  directory, socket presence, connect error, and the server's answer to the
  handshake headers) are a `Platform` value.
- **The two Python-API extractors** (`python-parser`, `api-parser`). They
  read the iTerm2 Python package and list its classes, enums and functions.
  - The syntax-tree libraries they call are outside the model. Their results
    are given values: a `Construct` (name, byte range, first line, source
    text, pre-extracted parameters) for python-parser, and a `Node` tree
    (kind, text, row, children) for api-parser, with each node's ancestors
    passed along.
  - Both binaries contain the same filter/sort/categorise commands and the
    same cache-path rule. `Listing` and `CachePaths` model them once, citing
    python-parser's copy; api-parser's copies are at
    api-parser/src/main.rs:961-1085, 1711-1735 and 1775-1797.
  - The records both produce are in `ApiTypes`. They are generic in the
    docstring type: python-parser uses `""` for a missing docstring and
    api-parser uses an absent value.
- **The documentation downloader** (`download-docs`). Its receive loop maps
  every crawled page of the Python API documentation to a file under
  `../docs/python-api` and counts the pages processed and downloaded.

Where the code and its documentation disagree, the model follows the code:

- A response with the wrong tag gives `Error::Api("Expected … response")`;
  there is no protocol-error variant.
- `connect` never attaches an authorization header.
- The WebSocket key is the fixed sample nonce of section 1.3 of RFC 6455.
- The connection keeps no open/closed state.

## Model

| member | source | states |
|---|---|---|
| Errors.Error.Display | src/error.rs:5-30 | each variant displays as its label, ": ", and its payload: "Connection failed: ", "API error: ", "Authentication error: ", "WebSocket error: ", "IO error: ", "Protobuf error: ", "URL error: ", "UTF-8 error: " |
| Errors.FromProtobuf | src/error.rs:13-14 | a protobuf failure becomes `Protobuf`, never `Api` or `Connection`, and displays with "Protobuf error: " |
| Errors.FromWebSocket | src/error.rs:7-8 | a transport failure becomes `WebSocket` and displays with "WebSocket error: " |
| Errors.LabelsDistinguishable | src/error.rs:5-30 | errors with different labels never display the same text |
| Errors.DisplayInjective | src/error.rs:5-30 | the displayed text determines the error: equal displays mean equal errors |
| Auth.Authenticator.HasCredentials | src/auth.rs:17-19 | true exactly when a cookie or a key is present; `GetAuthHeader` gives a header exactly then |
| Auth.Authenticator.GetAuthHeader | src/auth.rs:17-29 | some header exactly when `has_credentials`; a cookie gives "iTerm2-Auth-Cookie: " + cookie whatever the key; otherwise a key gives "iTerm2-Auth-Key: " + key |
| Auth.CookieTakesPrecedence | src/auth.rs:21-25 | once a cookie is present, the key makes no difference to the header |
| Auth.HeaderIdentifiesCredential | src/auth.rs:21-29 | equal headers come from the same kind of credential with the same value |
| Connection.SocketPath | src/connection.rs:41-43 | the socket path ends with "Library/Application Support/iTerm2/private/socket" and starts with the home directory when there is one |
| Connection.HandshakeCarriesNoCredential | src/connection.rs:57-74 | whatever the credentials, no line of the request `connect` sends to the server (`ConnectVerdict` applies the server's answer to exactly these headers) is an authorization header line |
| Connection.ConnectVerdict | src/connection.rs:45-86 | a missing socket gives `Connection` naming the socket path; success exactly when the socket exists, the connect succeeds and the server's answer to the handshake headers is 101; every failure is a `Connection` error |
| Connection.MissingSocketShortCircuits | src/connection.rs:45-50 | with the socket missing, the connect and handshake answers do not affect the outcome |
| Connection.RejectionNamesStatus | src/connection.rs:77-86 | a handshake status other than 101 gives a `Connection` error whose message contains the decimal status and the canonical reason, or "Unknown reason" |
| Connection.RejectionShowsStatus | src/connection.rs:78-80 | the rejection message contains the decimal status |
| Connection.RejectionShowsReason | src/connection.rs:78-85 | the rejection message contains the canonical reason, or "Unknown reason" |
| Connection.RequestsDifferOnlyInWindow | src/connection.rs:136-143 | `create_window`'s request has no window id; `create_tab`'s request has the given window id; both carry the given profile name |
| Connection.CreateTabOutcome | src/connection.rs:149-163 | success exactly on a create-tab response with status OK, and then the session id is the summary's identifier; another status gives `Api("<operation> failed: <status>")`; another tag gives `Api("Expected create tab response")` |
| Connection.SendTextOutcome | src/connection.rs:272-284 | success exactly on a send-text response with status OK; another status gives `Api("Send text failed: <status>")`; another tag gives `Api("Expected send text response")`; every failure is `Api` |
| Connection.ListSessionsOutcome | src/connection.rs:325-338 | success exactly on a list-sessions response, giving exactly its buried sessions; otherwise `Api("Expected list sessions response")` |
| Connection.GetWindowsOutcome | src/connection.rs:378-383 | success exactly on a list-sessions response, giving exactly its windows; otherwise `Api("Expected list sessions response")` |
| Connection.ListingsPartitionResponse | src/connection.rs:325-338 | on one list-sessions response, `list_sessions` returns the buried sessions and `get_windows` the windows |
| Connection.Classify | src/connection.rs:99-111 | end of stream gives `Connection("Connection closed")`; a transport error gives `WebSocket`; a non-binary frame gives `Connection("Unexpected message type: …")`; a binary frame gives its decoded message, or `Protobuf` when decoding fails |
| Connection.ITerm2Connection.constructor | src/connection.rs:88 | a new connection has the given transport and an empty outbox |
| Connection.ITerm2Connection.SendMessage | src/connection.rs:91-97 | an encoding or write failure is returned and nothing is logged; otherwise the message is appended to the outbox; nothing is read |
| Connection.ITerm2Connection.ReceiveMessage | src/connection.rs:99-111 | the result is the classification of the next event, which is consumed; nothing is written |
| Connection.ITerm2Connection.CreateWindow | src/connection.rs:135-164 | `create_window`'s request is written; if that fails, its error and nothing read; otherwise the request is logged and exactly one event is read and interpreted by `CreateTabOutcome` with "Create window" |
| Connection.ITerm2Connection.CreateTab | src/connection.rs:196-229 | as `CreateWindow`, with the window id set and "Create tab" |
| Connection.ITerm2Connection.SendText | src/connection.rs:261-286 | one write of the session id and text verbatim (no line terminator added), then one read interpreted by `SendTextOutcome` |
| Connection.ITerm2Connection.ListSessions | src/connection.rs:315-339 | one write of a list-sessions request, then one read interpreted by `ListSessionsOutcome` |
| Connection.ITerm2Connection.GetWindows | src/connection.rs:368-384 | one write of a list-sessions request, then one read interpreted by `GetWindowsOutcome` |
| Connection.Connect | src/connection.rs:39-89 | fails exactly when `ConnectVerdict` does, with its error; otherwise a fresh connection with an empty outbox over the given transport |
| ApiTypes.RenderParameter | python-parser/src/main.rs:797-805 | a parameter with a default renders as "n: t = d"; without one, as "n: t" when the type is non-empty and as the bare name exactly when it is empty |
| ApiTypes.Signature | python-parser/src/main.rs:795-809 | a signature starts with the name and "(", and ends with ")" |
| ApiTypes.SignatureEmpty | python-parser/src/main.rs:795-809 | without parameters the signature is the name followed by "()" |
| ApiTypes.SignatureSnoc | python-parser/src/main.rs:795-809 | one more parameter is rendered just before the closing ")", after ", " unless it is the first: the parameters appear in order, separated by ", " |
| ApiTypes.SignatureShowsEveryParameter | python-parser/src/main.rs:795-809 | every parameter appears, rendered, in the signature |
| ApiTypes.EnumSuffixSuffices | api-parser/src/main.rs:467-471 | the test "is Enum or ends with Enum" is the same as "ends with Enum" |
| PythonParser.IsWithinConstruct | python-parser/src/main.rs:1070-1084 | inner lies within outer when it starts no earlier and ends no later; `WithinIsPreorder` shows this is a preorder |
| PythonParser.WithinIsPreorder | python-parser/src/main.rs:1070-1084 | byte-range containment is reflexive and transitive |
| PythonParser.FromMetadata | python-parser/src/main.rs:691-703 | the metadata parameters map one-to-one, in order, with a missing type read as "Any" |
| PythonParser.ParameterSection | python-parser/src/main.rs:735-737 | the section between the first '(' and the first ')' contains no ')' |
| PythonParser.ReadPiece | python-parser/src/main.rs:742-780 | one pass of the fallback loop yields exactly the parameter `ParsePiece` gives for that piece |
| PythonParser.ExtractParameters | python-parser/src/main.rs:680-789 | the metadata parameters when there are any, otherwise the pieces of the section parsed one by one, in order |
| PythonParser.ParametersOfShape | python-parser/src/main.rs:741-780 | no fallback parameter has an empty name, a name with whitespace at either end, or a name containing ',', ':' or '=' |
| PythonParser.ParsedPieceShape | python-parser/src/main.rs:742-780 | a piece that yields a parameter yields one with such a name |
| PythonParser.WithDefaultShape | python-parser/src/main.rs:761-773 | the default is present exactly when the name part contains '=', and the name before it is well formed |
| PythonParser.ReceiverSkipped | python-parser/src/main.rs:745-747 | a piece that trims to "self" or "cls" yields no parameter |
| PythonParser.AnnotatedPiece | python-parser/src/main.rs:750-758 | an annotated piece "name:annotation" is read as the name, typed by the trimmed annotation |
| PythonParser.UnannotatedPiece | python-parser/src/main.rs:742-758 | an unpadded piece without ':' other than "self" and "cls" is read with type "Any" |
| PythonParser.BareName | python-parser/src/main.rs:742-780 | a bare name (no separators, no padding, not a receiver) gives a parameter of that name, type "Any" and no default |
| PythonParser.AnnotatedDefaultQuirk | python-parser/src/main.rs:750-765 | with an annotation, the default stays inside the type and no default is seen: "x: int = 5" has type "int = 5" and no default |
| PythonParser.DefaultAfterFirstEq | python-parser/src/main.rs:761-771 | "name=value" gives the name before the first '=' and the value after it as default |
| PythonParser.UnannotatedDefault | python-parser/src/main.rs:750-771 | without an annotation the default is seen: "x=5" has type "Any" and default "5" |
| PythonParser.ExtractSignature | python-parser/src/main.rs:791-810 | the signature starts with the name (empty when none) and "(", ends with ")", and shows every extracted parameter; with `SignatureSnoc`, in order and separated by ", " |
| PythonParser.StripQuotes | python-parser/src/main.rs:648-666 | exactly one character is stripped from each end of a literal longer than 2 that starts and ends with the same quote character; any other literal is unchanged, so the triple-quote branches never run |
| PythonParser.TripleQuotedKeepsQuotes | python-parser/src/main.rs:649-660 | a triple-quoted docstring keeps two quote characters at each end |
| PythonParser.DocstringOf | python-parser/src/main.rs:641-677 | non-empty exactly when some literal qualifies (inside the construct, non-empty, starting within 300 bytes, not blank once stripped); then it is the stripped text of the first qualifying literal, and not blank |
| PythonParser.ExtractDocstring | python-parser/src/main.rs:637-678 | the scan returns the stripped first qualifying literal, or "" |
| PythonParser.FindSuperclasses | python-parser/src/main.rs:898-931 | none exactly when no named match lies within the class; otherwise the names of those matches, in order |
| PythonParser.NestedBasesReachEnclosingClass | python-parser/src/main.rs:915-920 | containment is by byte range only, so every base of a nested class is also a base of its enclosing class |
| PythonParser.LineNumber | python-parser/src/main.rs:557 | the line number always fits in 32 bits, and equals the first line whenever that does |
| PythonParser.ClassRecord | python-parser/src/main.rs:546-560 | `inherits` is the superclasses or empty; `is_exception` exactly when "Exception" is a base; `is_abstract` exactly when "ABC" is a base or some base contains "Abstract" |
| PythonParser.PyExtension | python-parser/src/main.rs:279 | the extension is "py" exactly when the name has at least 4 characters and ends with ".py" |
| PythonParser.IsCollectedFile | python-parser/src/main.rs:279-281 | a file is parsed exactly when its name has at least 4 characters, ends with ".py", and does not start with '_' unless it is "__init__.py" |
| PythonParser.InitModuleCollected | python-parser/src/main.rs:281 | "__init__.py" is parsed |
| PythonParser.PrivateModuleSkipped | python-parser/src/main.rs:281 | "_private.py" is skipped |
| PythonParser.BareExtensionSkipped | python-parser/src/main.rs:279 | ".py" is skipped: its only '.' is its first character |
| Listing.Filter | python-parser/src/main.rs:1096-1098 | the filtered sequence keeps exactly the elements that pass, and takes nothing else |
| Listing.FilterTwice | python-parser/src/main.rs:1174-1190 | successive `retain` calls are one filter by the conjunction of their tests |
| Listing.FilterAll | python-parser/src/main.rs:1096 | an absent filter keeps everything |
| Listing.Retain | python-parser/src/main.rs:1097 | `retain` leaves exactly the filtered sequence |
| Listing.LexLeTotal | python-parser/src/main.rs:1101 | the name ordering is total |
| Listing.LexLeTransitive | python-parser/src/main.rs:1101 | the name ordering is transitive |
| Listing.SortByName | python-parser/src/main.rs:1101 | the result is sorted by name and is a permutation of the input |
| Listing.ListClasses | python-parser/src/main.rs:1087-1110 | the classes whose lowercased name contains the lowercased filter (all of them without a filter), each once, sorted by name |
| Listing.FindClass | python-parser/src/main.rs:1122-1131 | found exactly when some class has the name, ignoring case, and is not from "mainmenu.py"; then the first such class; otherwise "Class '<name>' not found" |
| Listing.QueryClass | python-parser/src/main.rs:1112-1151 | the target class of `FindClass`, with its methods the name and parameter filters select, sorted by name; the not-found message otherwise |
| Listing.ListFunctions | python-parser/src/main.rs:1164-1193 | the functions the name filter, the async restriction and the parameter filter select, sorted by name |
| Listing.CategoryNamesDistinct | python-parser/src/main.rs:1808-1820 | the six category names are distinct |
| Listing.CategoryOf | python-parser/src/main.rs:1808-1820 | each category exactly when its own test passes and every earlier one fails, in the order Getter ("get_" or "is_" prefix), Setter ("set_" prefix), Factory ("create" or "new" in the name), Async Operation ("async" in the name of an async method), Static Utility (static), General Method (otherwise) |
| Listing.Count | python-parser/src/main.rs:1822 | a category's count is at most the number of methods |
| Listing.CountSumAll | python-parser/src/main.rs:1807-1823 | the counts of all categories add up to the number of methods |
| Listing.TallyTotal | python-parser/src/main.rs:1804-1825 | the counts of the tally add up to the number of methods |
| Listing.TallyEntries | python-parser/src/main.rs:1822-1825 | a category appears, with its count, exactly when some method falls into it; no count is zero |
| Listing.TotalPermutation | python-parser/src/main.rs:1825-1826 | reordering the entries keeps their total |
| Listing.CountCategories | python-parser/src/main.rs:1805-1823 | the map holds exactly the categories with some method, each with its count |
| Listing.SortByCountDescending | python-parser/src/main.rs:1826 | the result is sorted by count, largest first, and is a permutation of the input |
| Listing.CategorizeMethods | python-parser/src/main.rs:1804-1828 | the result is a permutation of the tally, sorted by count, largest first |
| Listing.CategorizationTotal | python-parser/src/main.rs:1804-1828 | the counts in the result add up to the number of methods |
| CachePaths.StripPrefix | python-parser/src/main.rs:1873-1880 | some exactly when the source directory leads the path; then the components after it |
| CachePaths.WithJsonExtension | python-parser/src/main.rs:1882 | the cache name ends with ".json" |
| CachePaths.CachePath | python-parser/src/main.rs:1868-1890 | ".cache", then the path relative to the source directory with its extension replaced by "json"; a file outside the source directory gives a two-part path starting with ".cache"; the file name always ends with ".json" |
| CachePaths.PythonFileCacheName | python-parser/src/main.rs:1882 | a ".py" name's cache name swaps "py" for "json" |
| CachePaths.PythonCacheNameInjective | python-parser/src/main.rs:1882 | different ".py" names have different cache names |
| CachePaths.CachePathInjective | python-parser/src/main.rs:1868-1890 | two ".py" files under the source directory share a cache file only if they are the same file |
| ApiParser.FirstOfKind | api-parser/src/main.rs:582-588 | none exactly when no node has the kind; otherwise the first node that has it |
| ApiParser.NodeName | api-parser/src/main.rs:580-590 | a name exactly when some child is an identifier; then the text of the first one |
| ApiParser.ReturnType | api-parser/src/main.rs:895-905 | the text of the first `type` child, else "Any" |
| ApiParser.IsAsyncNode | api-parser/src/main.rs:907-917 | true exactly when some child is the `async` keyword |
| ApiParser.InsideClassMeans | api-parser/src/main.rs:525-534 | a node is inside a class exactly when some proper ancestor is a class definition |
| ApiParser.IsInsideClassNode | api-parser/src/main.rs:525-534 | the parent walk answers exactly whether some ancestor is a class definition |
| ApiParser.TypeAnnotation | api-parser/src/main.rs:858-872 | "Any" when no ancestor has a `type` child |
| ApiParser.FindTypeAnnotation | api-parser/src/main.rs:858-872 | the parent walk gives the first `type` child of the nearest ancestor that has one, else "Any" |
| ApiParser.ExtractDecoratorsFromNode | api-parser/src/main.rs:925-953 | the walk gives one "decorator" entry per identifier child of each `decorator` child of the nearest `decorated_definition` ancestor |
| ApiParser.DecoratorsAreLiteral | api-parser/src/main.rs:936-941 | every collected decorator is the literal "decorator", so "staticmethod" is never among them |
| ApiParser.IsStaticMethodNode | api-parser/src/main.rs:919-923 | always false |
| ApiParser.HasSetterNode | api-parser/src/main.rs:955-958 | always false, so `PropertyRecord` marks every property read-only |
| ApiParser.ExtractSuperclasses | api-parser/src/main.rs:592-613 | the identifiers of every `argument_list` child, in order |
| ApiParser.DottedBaseIgnored | api-parser/src/main.rs:598-605 | a class whose base is written `enum.Enum` has no superclasses, so nothing marks it as an enum |
| ApiParser.ExtractParametersFromNode | api-parser/src/main.rs:821-856 | the identifiers directly in each `parameters` child, in order, without "self" and "cls" |
| ApiParser.ParamsOfListShape | api-parser/src/main.rs:829-847 | no parameter of a list is "self" or "cls", none has a default, and all share the type of the nearest ancestor with a `type` child |
| ApiParser.ParametersShape | api-parser/src/main.rs:821-856 | no extracted parameter is "self" or "cls", and none has a default |
| ApiParser.ParametersInShape | api-parser/src/main.rs:825-853 | the same, over any run of the node's children |
| ApiParser.SignatureOf | api-parser/src/main.rs:874-893 | the signature starts with the name (empty when none) and "(", ends with ")", and shows every extracted parameter; with `SignatureSnoc`, in order and separated by ", " |
| ApiParser.OfKind | api-parser/src/main.rs:775-781 | every node kept has the kind and comes from the input |
| ApiParser.OfKindComplete | api-parser/src/main.rs:775-781 | every node of the kind is kept |
| ApiParser.OfKindFirst | api-parser/src/main.rs:775-781 | nothing is kept exactly when no node has the kind; otherwise the first kept is the first node of the kind |
| ApiParser.StringsIn | api-parser/src/main.rs:772-784 | every collected literal is a `string` node |
| ApiParser.StringsInComplete | api-parser/src/main.rs:772-784 | every `string` child of every `expression_statement` is collected |
| ApiParser.StringsInFirst | api-parser/src/main.rs:772-784 | nothing is collected exactly when no statement is an `expression_statement` with a `string` child; otherwise the first collected is the first string of the first such statement |
| ApiParser.StripDocQuotes | api-parser/src/main.rs:792-807 | none exactly when the literal neither starts and ends with '"' nor starts and ends with '\'' |
| ApiParser.DocstringOfNode | api-parser/src/main.rs:763-808 | none when the body holds no string literal; otherwise `StripDocQuotes` of the first body literal: its contents, trimmed, or none when no quote pair matches |
| ApiParser.ExtractDocstringFromNode | api-parser/src/main.rs:763-808 | the first body literal, stripped and trimmed; none without a body, a literal, or a recognised quote; it requires only that first literal to be long enough for its slice |
| ApiParser.OnlyFirstLiteralSliced | api-parser/src/main.rs:788-804 | whatever statements follow a well-quoted first body literal, the definition parses and its docstring is that literal, stripped |
| ApiParser.StrayQuoteAfterDocstring | api-parser/src/main.rs:672-690 | a function whose triple-quoted docstring is followed by a lone `"` parses, with the docstring's contents, trimmed |
| ApiParser.TripleQuotedDoc | api-parser/src/main.rs:792-797 | a literal in triple quotes (either kind) gives its contents, trimmed |
| ApiParser.SingleQuotedDoc | api-parser/src/main.rs:798-804 | a literal in single quotes (either kind) that is not also triple-quoted gives its contents, trimmed |
| ApiParser.DocQuoteEdgeCases | api-parser/src/main.rs:798-807 | an empty literal `""` gives an empty docstring, not an absent one; a prefixed literal such as `r"raw"` gives none |
| ApiParser.MethodRecord | api-parser/src/main.rs:653-670 | a method exactly when the node has a name; it is never static and has the extracted parameters |
| ApiParser.ParseMethodDefinition | api-parser/src/main.rs:653-670 | gives exactly `MethodRecord`; for a named node it requires only the first body literal to be sliceable |
| ApiParser.FunctionRecord | api-parser/src/main.rs:672-690 | a function exactly when the node has a name; it has the file path and the extracted parameters |
| ApiParser.ParseFunctionDefinition | api-parser/src/main.rs:672-690 | gives exactly `FunctionRecord`; for a named node it requires only the first body literal to be sliceable |
| ApiParser.PropertyRecord | api-parser/src/main.rs:751-760 | a property exactly when the node has a name; it is always read-only |
| ApiParser.ParsePropertyDefinition | api-parser/src/main.rs:751-760 | gives exactly `PropertyRecord`; for a named node it requires only the first body literal to be sliceable |
| ApiParser.PropertyNeedsOwnIdentifier | api-parser/src/main.rs:751-752 | a decorated definition without an identifier child of its own is never a property |
| ApiParser.CollectMembers | api-parser/src/main.rs:626-644 | function definitions become methods, decorated definitions become properties, in order; other statements are ignored |
| ApiParser.FindClassMembers | api-parser/src/main.rs:615-651 | only the direct children of the first `block` child are read |
| ApiParser.ClassRecord | api-parser/src/main.rs:545-578 | a class exactly when the node has a name; `inherits` is its superclasses; the line number is the row plus one; `is_exception` and `is_abstract` as in python-parser |
| ApiParser.ParseClassDefinition | api-parser/src/main.rs:545-578 | gives exactly `ClassRecord`; for a named node it requires the members of its first body to parse, its own first body literal to be sliceable, and the row plus one to fit in 32 bits |
| ApiParser.ConvertClassToEnum | api-parser/src/main.rs:536-543 | keeps the name, file path and docstring, and has no values |
| ApiParser.ClassesAndEnumsPartition | api-parser/src/main.rs:463-476 | every parsed class lands in exactly one of the two lists |
| ApiParser.KeptClassesAreNotEnums | api-parser/src/main.rs:467-475 | every kept class is a parsed class that does not inherit from an enum |
| ApiParser.EnumsComeFromEnumClasses | api-parser/src/main.rs:467-472 | every enum is the conversion of a parsed class that inherits from an enum |
| ApiParser.SplitCollected | api-parser/src/main.rs:463-490 | splitting node by node during the walk equals splitting the classes of the whole subtree |
| ApiParser.VisitClass | api-parser/src/main.rs:463-483 | a named class definition goes to `enums`, converted, when it inherits from an enum, and to `classes` otherwise |
| ApiParser.FindClassDefinitions | api-parser/src/main.rs:456-493 | the pre-order walk appends each node's classes and enums, in order |
| ApiParser.FindClassesInChildren | api-parser/src/main.rs:485-490 | the children are searched in order, each after the previous one |
| ApiParser.VisitFunction | api-parser/src/main.rs:501-513 | a named function definition outside every class is appended |
| ApiParser.FindFunctionDefinitions | api-parser/src/main.rs:495-523 | the pre-order walk appends each node's functions, in order |
| ApiParser.ParseTree | api-parser/src/main.rs:425-446 | requires only the definitions the two walks parse to parse; `classes` are the parsed non-enum classes and `enums` the converted enum classes of the tree, together as many as the parsed classes; `functions` are the module-level functions |
| ApiParser.NothingCollectedInsideClass | api-parser/src/main.rs:501-503 | nothing below a class is collected as a module-level function, however deep |
| DownloadDocs.PathSegments | download-docs/src/main.rs:59-60 | no segments exactly for a URL without a hierarchical path; no segment contains '/' |
| DownloadDocs.NameFile | download-docs/src/main.rs:78-85 | "index.html" for an empty path; "index.html" appended to a path ending in '/'; ".html" appended to a path with no '.'; otherwise unchanged; the result is never empty, never ends with '/' and always contains '.' |
| DownloadDocs.FilePathFor | download-docs/src/main.rs:62-85 | none exactly without segments or when the first segment is not "python-api"; otherwise a non-empty name containing '.', not ending in '/', that starts with the remaining segments joined with '/' |
| DownloadDocs.PathJoin | download-docs/src/main.rs:87 | an absolute relative path replaces the base; otherwise a '/' separates the base from it |
| DownloadDocs.PathSegmentsRoundTrip | download-docs/src/main.rs:59-60 | the segments of "/" followed by a path, joined with '/', give the path back |
| DownloadDocs.DoubledSlashGivesEmptySegment | download-docs/src/main.rs:59-60 | the path "/first//name" has the segments first, "" and name |
| DownloadDocs.EmptySegmentEscapesOutputDir | download-docs/src/main.rs:76-87 | an empty segment right after "python-api" makes the file path absolute, and the page is written outside `../docs/python-api` |
| DownloadDocs.ContainedFilePath | download-docs/src/main.rs:62-85 | the corrected mapping of the Findings row: as `FilePathFor`, and the result never starts with '/' |
| DownloadDocs.ContainedAgreesWhenRelative | download-docs/src/main.rs:76-85 | whenever the joined segments do not start with '/', the corrected rule gives the same path as the rule as written |
| DownloadDocs.ContainedPathStaysInside | download-docs/src/main.rs:87 | every corrected path joins to `../docs/python-api/` followed by it |
| DownloadDocs.PageFilePath | download-docs/src/main.rs:59-85 | removing the first segment, joining and naming in place gives exactly `FilePathFor` |
| DownloadDocs.SavedBy | download-docs/src/main.rs:53-104 | under a given mapping, a page leaves at most one file, and one exactly when its URL has a path, the mapping gives a file path and the write succeeds; the file is that path joined to `../docs/python-api` with the page's HTML |
| DownloadDocs.SavedAtMostReceived | download-docs/src/main.rs:48-52 | under either mapping, no more files are saved than pages are received |
| DownloadDocs.SavedFilesStayInside | download-docs/src/main.rs:87-104 | under the corrected mapping `ContainedFilePath`, every saved file lies under `../docs/python-api/` |
| DownloadDocs.EscapingPageSaved | download-docs/src/main.rs:76-104 | as written, a written page whose path has an empty segment right after "python-api" is saved outside `../docs/python-api` |
| DownloadDocs.ReceivePages | download-docs/src/main.rs:47-105 | `pages_processed` is the number of pages received; `pages_downloaded` is the number of files saved, which are exactly the files the pages leave under the mapping as written, in order; downloaded ≤ processed |

## Left out

- The WebSocket over the Unix domain socket (connecting, framing, the handshake exchange) is not modelled. The transport is an inbound event queue, an outbound log and a fixed write error.
- Protobuf encoding and decoding are not modelled. The codec is a pair of given functions. Response statuses are the names of their enumeration values.
- `dirs::home_dir`, `socket_path.exists()`, `UnixStream::connect` and `client_async` are inputs to `connect`, in a `Platform` value.
- The request builder's own failure (src/connection.rs:69) cannot happen with the fixed headers and is not modelled.
- `Authenticator::new` reads the environment; the model takes the cookie and key as values. `authenticate_via_applescript` runs a process and is not modelled.
- `src/lib.rs` only declares modules. Note that it does not declare `auth`, so the authenticator is unused by the library.
- The examples are usage code and are not modelled.
- The syntax-tree parsing and queries (tree-sitter, tree_parser) are foreign code. Their results are given `Construct` values or `Node` trees.
- The directory walk in `collect_python_files` is not modelled; only its file-name filter is (`IsCollectedFile`). The task spawning, `join_all`, timing and logging are left out too.
- The cache's file I/O and JSON (de)serialisation are not modelled; only the cache-path computation is.
- All `output_*` and `generate_*_stats` rendering and printing is left out.
- python-parser's `parse_method_definition`, `parse_function_definition`, `parse_enum_definition`, `parse_property_definition`, `is_inside_class`, `inherits_from_enum`, `is_property_decorator`, `has_setter`, `extract_enum_values`, `extract_return_type`, `is_async_function`, `is_static_method` and `extract_decorators` only call syntax-tree queries. They are not modelled beyond the class record built from given parts.
- api-parser's `parse_enum_definition` and `extract_enum_values_from_node` are never called by the walk and are not modelled.
- `parse_python_file`'s cache lookup, file read and parse failure paths are I/O and are not modelled; `ParseTree` is its tree walk.
- Lowercasing and whitespace are ASCII-only. Rust's `to_lowercase` and `trim` use Unicode rules.
- Byte offsets and character indices are identified: a source text is a sequence of characters.
- Listing.SortByName: does not state that the sort is stable (equal names keep their order), though the insertion sort is.
- Listing.CategorizeMethods: the category map is read in a fixed category order, where Rust's `HashMap` order is unspecified. The result's order between equal counts is therefore not the program's, which is unspecified anyway.
- ApiParser.ParseClassDefinition: for a named class, requires the row plus one to fit in 32 bits, where the source's `try_into().unwrap()` would panic.
- ApiParser.ExtractDocstringFromNode: requires the first body literal, the only one sliced, to be long enough for the slice that strips its quotes when it passes a quote test; a shorter one (a lone `"`, or `"""` itself) makes the source panic. Later and nested literals are unconstrained. The parse methods and the two walks pass this on only for the definitions they parse (`DefinitionParsable`, `ClassParsable`, `ClassesParsable`, `FunctionsParsable`).
- PythonParser.ExtractParameters: requires the first ')' not to precede the first '(', where the source's slice would panic.
- ApiParser.DocstringOfNode: for a node whose first body literal is too short for the slice that strips it (not `DocSliceable`) the source panics; the function gives none there.
- ApiParser.TypeAnnotation: states only the "Any" case; `FindTypeAnnotation` ties the walk to it.
- The spider crawler, its configuration, the event subscription, URL parsing, directory creation, file writes and logging are outside the model. A page arrives with its URL already parsed and with the file system's answer.

## Findings

| source | as written | input that shows it | evidently intended | confidence | as-written member | corrected member |
|---|---|---|---|---|---|---|
| download-docs/src/main.rs:76-87 | the remaining path segments are joined with '/' and passed to `Path::join`; an empty segment right after "python-api" makes the joined path start with '/', and `Path::join` then discards the output directory | a page whose URL path is "/python-api//etc" has segments ["python-api", "", "etc"] and is written to "/etc.html" | every page is saved under `../docs/python-api` | not executed | DownloadDocs.EmptySegmentEscapesOutputDir | DownloadDocs.ContainedPathStaysInside |
