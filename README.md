# WeToDo list log, resolvers and users — a Dafny model

WeToDo keeps each to-do list as a log of modification entries. This project models three parts of its JavaScript library:

- `list.js`:
  - the `ListModificationEntry` class. An entry is one log line `<time> <COMMAND> <provider>:<uid> <data>`, matched by the pattern `^([0-9]+) ([A-Z_]+) ([a-z]+:\d+) (.+)$`. The class covers parsing that line, building an entry from an object, and printing it back with `toString`.
  - the `List` class: its text constructor and object constructor, `addEntry`, `isShared` and `toString`. A list's text is a name line, a users line, then one line per entry.
- `list-handlers.js`: the command registry. It is a constant table from command name to handler, holding `CREATE` only, and both `handle` methods do nothing.
- `user.js`:
  - splitting a user id `provider:uid`;
  - the module-level registry of provider resolvers, with the `local` resolver registered at load;
  - the local resolver's lookup in its fixed table of three names;
  - `User.resolve`, which attaches the resolved data to the user.

The modules follow the source files:

- `Js` (`js.dfy`) holds the JavaScript semantics the code relies on. These are the dynamic type checks (`Arg`), the thrown errors (`Error`), `String.prototype.split`/`Array.prototype.join`, `substring` with its index clamping, `indexOf` with its `-1`, `Number.parseInt(_, 10)`, and the printing of a non-negative integer in decimal.
- `ListHandlers` (`list_handlers.dfy`).
- `Lists` (`lists.dfy`).
- `Users` (`users.dfy`).

Pure code is modelled as functions, and state that the source updates in place is modelled as classes:

- `Lists.List` keeps the `_entries` array as a `seq` field. `addEntry` appends to it, and the text constructor and `toString` are the source's loops, each with its invariant.
- `Users.Registry` keeps the module's `resolvers` map.
- `Users.User` keeps a user's `id` and the data attached by `resolve`.

The regular expression is modelled by a left-to-right scan over its four groups. `Lists.ExecSound` and `Lists.ExecComplete` prove that the scan accepts a line exactly when the line has that shape and that it returns those groups.

This version of the code knows one command, CREATE, whose handler does nothing. So a list holds its log of entries but derives no state from them. A leading zero in an entry's time is lost when the entry is written back (`Lists.LineRoundTrip`). Reading a list drops every line after the users line that is not an entry line. So a list text is written back unchanged exactly when each of those lines is an entry line with no leading zero in its time (`Lists.TextRoundTrip`).

## Model

| member | source | states |
|---|---|---|
| Js.Split | src/app/js/lib/list.js:87-88 | splitting on a character gives at least one piece, and no piece holds the separator |
| Js.SplitKeepsOut | src/app/js/lib/list.js:88 | a character absent from a string is absent from every piece of its split |
| Js.JoinSplit | src/app/js/lib/list.js:87-88 | joining the pieces of a split with the separator gives the string back |
| Js.SplitJoin | src/app/js/lib/list.js:152 | splitting the join of a nonempty list of separator-free pieces gives the pieces back |
| Js.SplitCount | src/app/js/lib/list.js:88 | a string splits into more than one piece exactly when it contains the separator |
| Js.IndexOf | src/app/js/lib/user.js:53 | `indexOf` is -1 exactly when the character is absent, else the position of its first occurrence |
| Js.Substring | src/app/js/lib/user.js:53-57 | `substring` within the string's bounds is the slice between them, in either order of the bounds; the result is never longer than the string |
| Js.Join | src/app/js/lib/list.js:152 | `join` on one character; its contract is stated by `Js.JoinSplit`, `Js.SplitJoin` and `Js.JoinSnoc` |
| Js.JoinSnoc | src/app/js/lib/list.js:153 | joining one more piece appends the separator and the piece |
| Js.ParseInt | src/app/js/lib/list.js:24 | `Number.parseInt(s, 10)`: white space skipped (`Js.ParseSigned` reads what follows), one sign, then the longest run of digits (`Js.LeadingDigits`), NaN when there is none; its contract is stated by `Js.ParseIntOfDigits`, `Js.ParseIntOfNumeral` and `Js.ParseIntNaN` |
| Js.NatToDecimal | src/app/js/lib/list.js:63 | the printed time is a nonempty run of digits with no superfluous leading zero |
| Js.DecimalOfPrinted | src/app/js/lib/list.js:24 | reading back the printed decimal of a number gives that number |
| Js.PrintedOfDecimal | src/app/js/lib/list.js:63 | a canonical run of digits is the printed form of its value |
| Js.LeadingZeroLost | src/app/js/lib/list.js:63 | a run of digits with a superfluous leading zero is never the printed form of its value |
| Js.ParseIntOfDigits | src/app/js/lib/list.js:24 | `Number.parseInt(s, 10)` on a nonempty run of digits is their decimal value |
| Js.ParseIntOfNumeral | src/app/js/lib/list.js:24 | after white space and at most one sign, `parseInt` gives the value of the digits up to the first non-digit, negated after `-` |
| Js.ParseIntNaN | src/app/js/lib/list.js:24 | after white space and at most one sign, the end of the string or a character that is no digit, white space or sign gives NaN |
| Js.ParseIntSkipsWhiteSpace | src/app/js/lib/list.js:24 | leading StrWhiteSpaceChar characters are skipped, and what follows them is read as a signed number |
| Js.LeadingDigitsOf | src/app/js/lib/list.js:24 | the number read is that of the digits up to the first non-digit |
| ListHandlers.NewHandler | src/app/js/lib/list-handlers.js:4-7 | a handler is built exactly from a string command, which it keeps; anything else fails with "Command must be a string" |
| ListHandlers.NewCreateHandler | src/app/js/lib/list-handlers.js:15-18 | the CREATE handler has command 'CREATE' |
| ListHandlers.HandlersTable | src/app/js/lib/list-handlers.js:25-27 | the table has the one key CREATE, and every key is its handler's command |
| ListHandlers.Handle | src/app/js/lib/list-handlers.js:10-22 | applying either handler to any state leaves the state unchanged |
| ListHandlers.LookupAsWritten | src/app/js/lib/list.js:37-38 | a property read on the table finds an own handler exactly for the table's keys, and an inherited member for the other names of `Object.prototype` |
| ListHandlers.InheritedNameAccepted | src/app/js/lib/list.js:37-38 | "constructor" is no key of the table, yet the lookup as written does not come back empty |
| ListHandlers.Lookup | src/app/js/lib/list.js:37-38 | the intended lookup finds a handler exactly for the table's keys, and that handler handles the name looked up |
| ListHandlers.LookupsAgreeOnCommandNames | src/app/js/lib/list.js:37-38 | for names of upper-case letters and `_`, the lookup as written is empty exactly when the intended one is |
| Lists.ExecSound | src/app/js/lib/list.js:70 | a line the pattern accepts is the groups it returns, joined by single spaces, each group in its class |
| Lists.ExecComplete | src/app/js/lib/list.js:70 | every line made of four groups in their classes is accepted, with those groups |
| Lists.Exec | src/app/js/lib/list.js:21 | `pattern.exec(data)`: the scan; its contract is stated by `Lists.ExecSound` and `Lists.ExecComplete` |
| Lists.FromObject | src/app/js/lib/list.js:29-39 | intended: an entry object is accepted exactly when its command is a key of the table; the fields are kept verbatim with that key's handler; otherwise it fails with "Unknown command" |
| Lists.FromObjectAsWritten | src/app/js/lib/list.js:29-39 | as written: an entry object is accepted exactly when its command is a key of the table or a name of `Object.prototype`; the fields are kept verbatim with what the lookup read; otherwise it fails with "Unknown command" |
| Lists.InheritedCommandAccepted | src/app/js/lib/list.js:37-38 | an entry object with command "constructor" is accepted as written and refused by the intended branch |
| Lists.FromObjectsAgreeOnCommandNames | src/app/js/lib/list.js:37-38 | for commands of upper-case letters and `_`, both branches accept the same objects, with the same own handler |
| Lists.ParseLine | src/app/js/lib/list.js:19-28 | an entry read from a line has command CREATE; reading fails only with "Bad entry line" or "Unknown command" |
| Lists.ParseLineTime | src/app/js/lib/list.js:24 | the time of an entry read from a line is `Number.parseInt` of the first group |
| Lists.ParseLineWellFormed | src/app/js/lib/list.js:21-28 | every entry read from a line is well formed: its fields fit the pattern and its command is in the table |
| Lists.NewEntry | src/app/js/lib/list.js:17-41 | the constructor fails for a non-list with "Given list must be a List object"; reads a string as a line; builds an object through the intended lookup of the table; reading a field of null throws; any other value fails with "data must be entry line or object" |
| Lists.ParseLineOfMatch | src/app/js/lib/list.js:21-28 | a matching line gives time = decimal value of group 1 and groups 2-4 verbatim, or "Unknown command" when group 2 is not in the table |
| Lists.ParseLineRejects | src/app/js/lib/list.js:21-22 | a line fails with "Bad entry line" exactly when no groups match it |
| Lists.ExampleTime | test/lib/list.js:41-50 | the example timestamp "1234" is a canonical run of digits worth 1234 |
| Lists.ExampleGroups | test/lib/list.js:41-50 | the example groups each lie in their class |
| Lists.ExampleLine | test/lib/list.js:41-50 | the example groups joined are "1234 CREATE g:123 fff" |
| Lists.ParseLineExample | test/lib/list.js:41-50 | "1234 CREATE g:123 fff" parses to time 1234, CREATE, g:123, fff, and prints back unchanged |
| Lists.BadLineExample | test/lib/list.js:61-68 | "foo" fails as a bad entry line |
| Lists.UnknownCommandExample | test/lib/list.js:70-77 | "1 FOO f:1 bar" fails as an unknown command |
| Lists.LineRoundTrip | src/app/js/lib/list.js:62-64 | printing a parsed line gives the line back exactly when its time has no leading zero |
| Lists.EntryRoundTrip | src/app/js/lib/list.js:62-64 | parsing a printed entry gives it back exactly when the entry is well formed |
| Lists.SerializedIsOneLine | src/app/js/lib/list.js:63 | a well-formed entry prints as a single line |
| Lists.Serialize | src/app/js/lib/list.js:62-64 | `entry.toString()`; its contract is stated by `Lists.LineRoundTrip`, `Lists.EntryRoundTrip` and `Lists.SerializedIsOneLine` |
| Lists.ParseEntries | src/app/js/lib/list.js:89-95 | the lines of a text give at most one entry each |
| Lists.ParseEntriesStep | src/app/js/lib/list.js:89-95 | one more line adds its entry at the end if it parses, and nothing otherwise |
| Lists.ParseEntriesWellFormed | src/app/js/lib/list.js:89-95 | every entry kept from the lines is well formed |
| Lists.ParseEntriesAppend | src/app/js/lib/list.js:89-95 | the entries of two consecutive blocks of lines are the entries of the first block followed by those of the second |
| Lists.ParseEntriesCount | src/app/js/lib/list.js:89-95 | every line gives an entry exactly when every line parses; a line that fails is dropped |
| Lists.ParseEntriesKeepsAll | src/app/js/lib/list.js:89-95 | when every line parses, the k-th entry is the k-th line's |
| Lists.SerializeAll | src/app/js/lib/list.js:153 | one printed line per entry, the k-th line printing the k-th entry |
| Lists.ParseEntriesOfSerialized | src/app/js/lib/list.js:89-95 | reading the printed lines of well-formed entries gives the entries back |
| Lists.SerializedOfParsed | src/app/js/lib/list.js:153 | printing the entries of lines that parse with canonical times gives the lines back |
| Lists.SerializeList | src/app/js/lib/list.js:151-156 | `list.toString()` on a list state; its contract is stated by `Lists.LinesOfList`, `Lists.ListRoundTrip` and `Lists.TextRoundTrip` |
| Lists.ParseListText | src/app/js/lib/list.js:86-96 | reading a text succeeds exactly when it has a second line, and otherwise fails on the missing users line |
| Lists.ReadStorable | src/app/js/lib/list.js:86-96 | a list read from a text is storable: its name holds no newline, it has at least one user, no user holds a space or a newline, and its entries are well formed |
| Lists.LinesOfList | src/app/js/lib/list.js:151-156 | the lines of a list's text are its name, its users joined by spaces, and one line per entry |
| Lists.ListRoundTrip | src/app/js/lib/list.js:151-156 | reading a list's text gives the list back exactly when the list is storable |
| Lists.EmptyUsersReadBack | src/app/js/lib/list.js:88 | a list with no users reads back with one empty-string user |
| Lists.TextRoundTrip | src/app/js/lib/list.js:86-96 | writing a text back after reading it gives it back exactly when every line after the second parses with a canonical time |
| Lists.CanonicalTextWritesBack | src/app/js/lib/list.js:86-96 | a text whose entry lines all parse with canonical times is written back unchanged |
| Lists.WrittenBackIsCanonical | src/app/js/lib/list.js:86-96 | a text that is written back unchanged has only entry lines that parse with canonical times |
| Lists.ListExample | test/lib/list.js:150-155 | the fixture text reads as "Example List", user gh:1234 and one CREATE entry, and writes back unchanged |
| Lists.ExampleListText | test/lib/list.js:150-155 | the fixture list prints as the fixture text |
| Lists.ExampleEntryText | test/lib/list.js:99-101 | the fixture entry prints as "1234 CREATE g:123 fff" |
| Lists.ExampleJoin | test/lib/list.js:150-155 | the fixture's three lines joined by newlines are the fixture text |
| Lists.ExampleListStorable | test/lib/list.js:150-155 | the fixture list is storable |
| Lists.SharedIffSpace | src/app/js/lib/list.js:141-143 | a list read from a text is shared exactly when its users line holds a space |
| Lists.Shared | src/app/js/lib/list.js:141-143 | `isShared()` on a list state: more than one user; its contract is stated by `Lists.SharedIffSpace` and `Lists.SharedOfRecord` |
| Lists.SharedOfRecord | src/app/js/lib/list.js:141-143 | a list built from an object is shared exactly when the object gives more than one user in `users` |
| Lists.InitialUsers | src/app/js/lib/list.js:103 | the users are `data.users` if present, else a one-user list for a nonempty `data.user`, else empty |
| Lists.ChosenUuid | src/app/js/lib/list.js:99 | a nonempty given uuid is kept, and otherwise the generated one is used |
| Lists.List.constructor | src/app/js/lib/list.js:97-104 | the object constructor keeps the name, chooses the uuid and users as above, and starts with no entries |
| Lists.List.FromText | src/app/js/lib/list.js:86-96 | the text constructor fails exactly when reading the text fails, and otherwise builds a fresh list whose state is the one read from the text |
| Lists.List.AddLines | src/app/js/lib/list.js:89-95 | the loop leaves exactly the entries of the lines after the second, in order |
| Lists.List.AddEntry | src/app/js/lib/list.js:119-122 | an entry is appended at the end and nothing else changes; anything else fails with "Entry must be a list" and leaves the entries as they were |
| Lists.List.IsShared | src/app/js/lib/list.js:141-143 | `list.isShared()` holds exactly when the list's state is shared |
| Lists.List.ToString | src/app/js/lib/list.js:151-156 | the loop builds the list's text: name, users joined by spaces, and one line per entry |
| Lists.AddKeepsStorable | src/app/js/lib/list.js:119-122 | adding a well-formed entry to a storable list keeps it storable, and its text reads back to the extended list |
| Users.ProviderOf | src/app/js/lib/user.js:52-54 | the provider holds no ':' and is the text before the first ':', or empty when there is none |
| Users.UidOf | src/app/js/lib/user.js:56-58 | the uid is the text after the first ':' (as long as the id less the provider and the ':'), or the whole id when there is none |
| Users.SplitId | src/app/js/lib/user.js:52-58 | for an id with a ':', provider + ':' + uid is the id |
| Users.JoinId | src/app/js/lib/user.js:52-58 | a provider without ':' joined by ':' to any uid splits back into that provider and uid |
| Users.User.Provider | src/app/js/lib/user.js:52-54 | `user.provider` is `Users.ProviderOf` of the user's id |
| Users.User.Uid | src/app/js/lib/user.js:56-58 | `user.uid` is `Users.UidOf` of the user's id |
| Users.NewProviderResolver | src/app/js/lib/user.js:14-17 | a resolver is built exactly from a string provider, which it keeps; anything else fails the assertion |
| Users.NewLocalResolver | src/app/js/lib/user.js:31-34 | the local resolver serves provider 'local' |
| Users.ResolveLocalAsWritten | src/app/js/lib/user.js:36-40 | as written, local resolution fails exactly when `parseInt` gives NaN or a value of at least 3; a negative value resolves to no name; any other value i resolves to the i-th name of the table |
| Users.NegativeLocalUidAccepted | src/app/js/lib/user.js:37-38 | as written, uid "-1" resolves, to data without a name |
| Users.ResolveLocal | src/app/js/lib/user.js:36-40 | intended: resolves exactly when the parsed uid is an index i of the table, to the i-th name; otherwise fails with "Unknown local user" |
| Users.ResolveLocalOfIndex | src/app/js/lib/user.js:36-40 | the printed index i resolves to the i-th name when i < 3, and fails otherwise |
| Users.ResolveLocalZero | test/lib/user.js:13-18 | uid "0" resolves to WeToDo |
| Users.LocalResolutionsAgreeOnDigits | src/app/js/lib/user.js:37-38 | on a uid of digits only, the local resolution as written and the intended one agree |
| Users.ResolveWith | src/app/js/lib/user.js:20-22 | intended: the base resolver gives `undefined`, on which the caller's `then` fails; the local resolver resolves through `Users.ResolveLocal` |
| Users.ResolveWithAsWritten | src/app/js/lib/user.js:36-40 | as written: the base resolver gives `undefined`, on which `then` fails; the local resolver resolves through `Users.ResolveLocalAsWritten` |
| Users.ResolveWithsAgreeOnDigits | src/app/js/lib/user.js:37-38 | on a uid of digits only, the two dispatches agree |
| Users.Register | src/app/js/lib/user.js:24-28 | a resolver is stored under its provider and every other provider is kept; any other object fails as an invalid resolver type, and a non-object fails the type assertion |
| Users.RegisterReplaces | src/app/js/lib/user.js:28 | a later registration for the same provider replaces the earlier one |
| Users.RegisterCommutes | src/app/js/lib/user.js:28 | registrations for different providers commute |
| Users.InitialResolvers | src/app/js/lib/user.js:43 | once the module is loaded, the registry holds the local resolver alone, under `local` |
| Users.Registry.constructor | src/app/js/lib/user.js:43 | loading the module registers the local resolver |
| Users.Registry.RegisterResolver | src/app/js/lib/user.js:24-28 | the registry becomes the one `Register` gives, or stays as it was when registration fails |
| Users.ResolvedAsWritten | src/app/js/lib/user.js:60-68 | as written: an unknown provider fails with "Unknown provider"; otherwise the provider's resolver runs on the uid, and its failure is returned; its success is the result for a user with no data yet, while a user already resolved fails with "Cannot redefine property" |
| Users.Resolved | src/app/js/lib/user.js:60-68 | intended: data already attached is read back; otherwise the provider's resolver runs on the uid, and an unknown provider fails |
| Users.FirstResolveAgrees | src/app/js/lib/user.js:60-68 | on a user with no data yet and a uid of digits only, both versions of resolve agree |
| Users.NegativeLocalUserResolves | src/app/js/lib/user.js:36-40 | on the loaded registry, `local:-1` resolves as written to data without a name, and the intended resolve fails with "Unknown local user" |
| Users.ResolveIdempotent | src/app/js/lib/user.js:61 | resolving again after a success gives the same data |
| Users.ResolveLocalUser | test/lib/user.js:13-18 | `local:0` resolves to WeToDo on the registry of a freshly loaded module |
| Users.ResolveLocalUserAsWritten | test/lib/user.js:13-18 | as written too, the first resolve of `local:0` gives WeToDo |
| Users.SecondResolveFails | test/lib/user.js:20-25 | as written, the second resolve of `local:0` fails on redefining `data`, whereas the intended resolve reads back WeToDo |
| Users.User.constructor | src/app/js/lib/user.js:46-49 | a user keeps the id it is built from and has no data |
| Users.User.Create | src/app/js/lib/user.js:46-49 | a user is built exactly from a string id, fresh and with no data; anything else fails the assertion |
| Users.User.Resolve | src/app/js/lib/user.js:60-68 | intended: on success the user's data becomes what `Users.Resolved` gives; on failure the data is unchanged |
| Users.User.ResolveAsWritten | src/app/js/lib/user.js:60-68 | as written: on success the user's data becomes what `Users.ResolvedAsWritten` gives, so a second resolve fails and keeps the first data; on failure the data is unchanged |

## Left out

- Promises are left out. `User.resolve`, `LocalProviderResolver.resolve`, `resolveUser` and `resolveUsers` return their value directly, and a synchronous throw (the "Unknown provider" and "Unknown local user" assertions, and `then` on the base resolver's `undefined`) and a rejection (the redefinition of `data` inside `then`) both become an `Err`. `resolveUser` (src/app/js/lib/list.js:50-54) and `resolveUsers` (src/app/js/lib/list.js:130-133) only wrap a value in a promise and are not modelled.
- `uuid/v4` is random. The uuid it would generate is a parameter (`generated`) of the list constructors.
- `time` is a `nat` of epoch milliseconds. The `Date` object, its range, and the floating-point precision of `parseInt` on very long digit runs are left out.
- The entry's `list` back-reference is left out. So is the fact that the text constructor passes the discarded `this`, not the returned list, to each entry (src/app/js/lib/list.js:91). No modelled operation reads that reference.
- The `entries` and `users` getters (src/app/js/lib/list.js:106-111) copy the array. Since the model's fields are values, a getter is the field itself.
- The object constructors read untyped fields. `Lists.ListRecord` and `Lists.EntryArg` give those fields the types the code uses them at, and a record with a missing or ill-typed field is not modelled. `null` as entry data is modelled: reading a field of it throws.
- Lists.ParseLine: the time is computed as the decimal value of the first group. `Lists.ParseLineTime` proves this equals `Number.parseInt` of that group, as the code computes it.
- Users.Register: `registerResolver(null)` and a resolver whose `toString` throws are not modelled. Such a call throws a TypeError while building the assertion message, instead of failing the assertion.
- Users.User.Resolve: the registry is a parameter instead of a module-level global.
- Users.User.Resolve: it implements the intended resolve, which reads attached data back and uses the corrected local resolver. The source's behaviour is `Users.User.ResolveAsWritten`, which fails on a second resolve.
- Lists.NewEntry: its object branch uses the intended own-key lookup (`Lists.FromObject`). The source's acceptance of inherited names is `Lists.FromObjectAsWritten`. Log lines cannot reach those names, because their command is upper-case (`Lists.FromObjectsAgreeOnCommandNames`).
- Lists.FromObject: it is the intended branch, and it refuses the `Object.prototype` names the source accepts (`Lists.InheritedCommandAccepted`).
- Strings are sequences of Unicode scalar values. JavaScript strings are UTF-16 code units, so lone surrogates cannot be represented here, and positions count code points, not code units. No result on text without astral characters or lone surrogates differs.
- Users.ResolveWith: a resolver subclass other than the two in the source is not modelled.
- `data.js`, `fs.js`, the `ui/` files, `app.js` and the build files are not part of this model. They hold storage, DOM rendering and wiring.
- The handlers and members that only the test file `test/lib/list-handlers.js` uses, such as DELETE, CHECK, `ListEntry` and `applyLast`, are not part of this model. They do not exist in this version of the source.
- The `writeable` misspelling at src/app/js/lib/list.js:101 and src/app/js/lib/list.js:103 leaves `_entries` and `_users` non-writable. The code only mutates those arrays in place and never reassigns them, so the misspelling has no effect that the model could show.

## Findings

| source | as written | input that shows it | evidently intended | confidence | as-written member | corrected member |
|---|---|---|---|---|---|---|
| src/app/js/lib/list.js:37-38 | `handlers[data.command]` is a property read on a plain object, which also finds members inherited from `Object.prototype` | an entry object with command `constructor` (or `toString`) is accepted, with `Object` as its handler | only the table's own keys name a handler, and other names fail with "Unknown command" | not executed | Lists.InheritedCommandAccepted | Lists.FromObject |
| src/app/js/lib/user.js:37-38 | only `i < LOCALS.length` is checked | user `local:-1`: `parseInt` gives -1, the check passes, and the user resolves to `{ name: undefined }` | `0 <= i < 3`, and other uids fail with "Unknown local user" | not executed | Users.NegativeLocalUserResolves | Users.ResolveLocal |
| src/app/js/lib/user.js:60-68 | every resolve defines `data` as a fresh, non-configurable property | resolving user `local:0` twice, as the second test in test/lib/user.js:20-25 does: the second `defineProperty` throws "Cannot redefine property: data" | data resolved once is read from the user, as the comment at src/app/js/lib/user.js:61 plans | not executed | Users.SecondResolveFails | Users.ResolveIdempotent |
