# MadelineProto connection context and memory table, in Dafny

This project models two classes of the MadelineProto Telegram client library.

**`ConnectionContext`** describes one connection to a numbered Telegram
datacenter (DC):
- flags: TLS, test or main network, media, CDN, DNS, IPv6;
- the URI, socket context, cancellation token and read callback, all opaque;
- a DC id, which `setDc` validates and `getIntDc` packs into one signed integer;
- a stack of stream descriptors (class name and extra parameters) with an
  integer cursor `key`:
  - `addStream` pushes a descriptor and points the cursor at it;
  - `getStream` pops the descriptor at the cursor;
  - a decorator stream's `connect` calls `getStream` again, so one
    connection attempt drains the stack from the top down;
- `getCtx` clones the context, so each connection attempt consumes its own
  copy of the stack.

The model is a Dafny class `Connection.ConnectionContext`:
- its fields are the source's fields;
- the stack is a `seq<StreamEntry>`;
- its setters change one field each;
- `getStream`, `hasStreamName`, `getInputClientProxy` and `getName` are methods.
  The last three loop the way the source's `foreach` loops do.

The PHP library functions the class relies on are modelled as functions in
`PhpStrings`:
- `intval` of a string;
- `strpos`;
- the `preg_replace` that strips a namespace.

The DC-id validation and the integer encoding are in `DcId`.

**`MemoryArray`** is the in-memory database backend. It is modelled as
`MemoryDb.MemoryArray`, a class whose `map<Key, V>` field its methods update
in place. Its static `getInstance` either reuses a memory table or moves the
contents of another backend into a new one. `MemoryDb.DbTable` stands for
that other backend.

Several things the source leaves to unseen code are parameters of the model:
- `isProxy` says which stream classes implement the proxy-stream interface;
- `wraps` says which streams are decorators whose `connect` pops another stream;
- `json` stands for `json_encode`.

Files:
- `wrappers.dfy`: Option, Result, Outcome.
- `php_strings.dfy`: `intval`, `strpos`, the namespace stripping.
- `dc_id.dfy`: DC-id validity and the signed encoding.
- `connection_context.dfy`: the context class, the stack assembly, the diagnostic name.
- `memory_array.dfy`: the memory table and its factory.

## Model

| member | source | states |
|---|---|---|
| PhpStrings.SkipSpaceDropsSpace | src/danog/MadelineProto/Stream/ConnectionContext.php:233 | the leading whitespace `intval` skips: the result is a suffix, everything dropped is whitespace, and the result does not start with whitespace |
| PhpStrings.LeadingDigits | src/danog/MadelineProto/Stream/ConnectionContext.php:233 | the digit prefix `intval` reads: a prefix of the input, all digits, followed by a non-digit or the end |
| PhpStrings.IntValOfDigitStart | src/danog/MadelineProto/Stream/ConnectionContext.php:233 | on a string that starts with a digit, `intval` is the value of its leading digits |
| PhpStrings.IntValOfDecimal | src/danog/MadelineProto/Stream/ConnectionContext.php:233 | `IntVal`, the model of `intval`, of a decimal numeral followed by text that does not start with a digit (such as "_media") is the numeral's value |
| PhpStrings.StrPosFromFinds | src/danog/MadelineProto/Stream/ConnectionContext.php:238-239 | the search from a position finds the first occurrence at or after it, and fails only when there is none |
| PhpStrings.StrPosIsFirstOccurrence | src/danog/MadelineProto/Stream/ConnectionContext.php:238-239 | `StrPos`, the model of `strpos`, returns the first occurrence; `Contains`, the model of `strpos(...) !== false`, holds iff the needle occurs somewhere |
| PhpStrings.LastIndexOfIsLast | src/danog/MadelineProto/Stream/ConnectionContext.php:383 | the position of the last occurrence of a character, or -1 when there is none |
| PhpStrings.ShortNameIsLastSegment | src/danog/MadelineProto/Stream/ConnectionContext.php:383 | `ShortName`, the model of the `preg_replace`, strips everything up to the last backslash and leaves a suffix with no backslash, preceded by a backslash unless it is the whole name |
| DcId.Encode | src/danog/MadelineProto/Stream/ConnectionContext.php:254-264 | for an id in [1,1000], decoding recovers the id, the test flag and the media flag; the result is never 0; it is negative iff media; its magnitude is in [1,1000] on the main network and [10001,11000] on the test network |
| DcId.EncodeInjective | src/danog/MadelineProto/Stream/ConnectionContext.php:254-264 | two valid ids with their flags encode to the same integer only if the ids and both flags are equal |
| DcId.EncodeExamples | src/danog/MadelineProto/Stream/ConnectionContext.php:254-264 | DC 5 encodes as 5, 10005 on test, -5 for media and -10005 for both |
| DcId.SuffixesDisjoint | src/danog/MadelineProto/Stream/ConnectionContext.php:238-239 | "_cdn" does not occur in "_media", and "_media" does not occur in "_cdn" |
| DcId.SuffixOccurrence | src/danog/MadelineProto/Stream/ConnectionContext.php:238-239 | in digits followed by "", "_media" or "_cdn", each of the two suffixes is found exactly when it is the one appended |
| DcId.TextForm | src/danog/MadelineProto/Stream/ConnectionContext.php:233-239 | an id in [1,1000] written in decimal, with an optional "_media" or "_cdn", is accepted with that id, and media or cdn holds exactly for its suffix |
| DcId.MediaExample | src/danog/MadelineProto/Stream/ConnectionContext.php:233-239 | "5_media" is accepted as DC 5 with media set and cdn clear |
| DcId.OutOfRangeExample | src/danog/MadelineProto/Stream/ConnectionContext.php:233-236 | "1001" is rejected |
| Connection.TopFirstAt | src/danog/MadelineProto/Stream/ConnectionContext.php:379 | the k-th element of the top-first listing is the element k places below the top of the stack |
| Connection.RenderedAt | src/danog/MadelineProto/Stream/ConnectionContext.php:379-386 | the k-th rendered stream of `getName` is the stream k places below the top, rendered |
| Connection.UsingAfterPush | src/danog/MadelineProto/Stream/ConnectionContext.php:379-387 | after a push, the stream listing of `getName` starts with the new stream, followed by " => " and the previous listing if the stack was not empty |
| Connection.UsingListsReverse | src/danog/MadelineProto/Stream/ConnectionContext.php:379-387 | the listing of a non-empty stack is its top stream, then " => " and the listing of the rest if there is any |
| Connection.AppendStreams | src/danog/MadelineProto/Stream/ConnectionContext.php:379-387 | the loop over the reversed stack appends exactly the top-first listing to the string it starts from |
| Connection.AssemblyPopsDownToBase | src/danog/MadelineProto/Stream/ConnectionContext.php:338-347 | `Assembly`, the streams one connection attempt pops: an attempt from cursor k succeeds iff k is inside the stack and some stream at or below k wraps nothing; then it yields the streams from k down to the first such stream, in popping order, each built from its descriptor |
| Connection.CursorAfter | src/danog/MadelineProto/Stream/ConnectionContext.php:340 | every connection attempt moves the cursor strictly down |
| Connection.CursorAfterCountsPops | src/danog/MadelineProto/Stream/ConnectionContext.php:340 | each pop lowers the cursor by exactly one: after a successful attempt the cursor is one below the innermost stream popped (the old cursor minus the number of streams); after a failed one it is -2 when the stack was drained, or one below a cursor that started outside the stack |
| Connection.ExhaustedStep | src/danog/MadelineProto/Stream/ConnectionContext.php:340 | a pop with the cursor outside the stack ends the attempt with an error and lowers the cursor by one |
| Connection.BaseStep | src/danog/MadelineProto/Stream/ConnectionContext.php:340-345 | popping a stream that wraps nothing ends the attempt, with that stream innermost |
| Connection.DecoratorStep | src/danog/MadelineProto/Stream/ConnectionContext.php:340-345 | popping a decorator adds its layer, and the attempt goes on from the stream below it |
| Connection.ConnectionContext.constructor | src/danog/MadelineProto/Stream/ConnectionContext.php:45-107 | a new context has every flag clear, DC "0", an empty stack with the cursor at 0, and no URI, socket context, token or callback |
| Connection.ConnectionContext.Clone | src/danog/MadelineProto/Stream/ConnectionContext.php:164-167 | a clone has the same value in every field (PHP `clone`) |
| Connection.ConnectionContext.SetSocketContext | src/danog/MadelineProto/Stream/ConnectionContext.php:111-115 | sets the socket context and changes nothing else |
| Connection.ConnectionContext.SetUri | src/danog/MadelineProto/Stream/ConnectionContext.php:127-131 | sets the URI and changes nothing else |
| Connection.ConnectionContext.SetCancellationToken | src/danog/MadelineProto/Stream/ConnectionContext.php:149-153 | sets the cancellation token and changes nothing else |
| Connection.ConnectionContext.SetTest | src/danog/MadelineProto/Stream/ConnectionContext.php:171-175 | sets the test flag and changes nothing else |
| Connection.ConnectionContext.SetIsDns | src/danog/MadelineProto/Stream/ConnectionContext.php:207-211 | sets the DNS flag and changes nothing else |
| Connection.ConnectionContext.Secure | src/danog/MadelineProto/Stream/ConnectionContext.php:215-219 | sets the TLS flag and changes nothing else |
| Connection.ConnectionContext.SetIpv6 | src/danog/MadelineProto/Stream/ConnectionContext.php:268-272 | sets the IPv6 flag and changes nothing else |
| Connection.ConnectionContext.SetReadCallback | src/danog/MadelineProto/Stream/ConnectionContext.php:296-299 | sets the read callback and changes nothing else |
| Connection.ConnectionContext.SetDc | src/danog/MadelineProto/Stream/ConnectionContext.php:231-241 | fails, with the message "Invalid DC id provided: " and the id, iff `intval` of the id is outside [1,1000], and then changes nothing; otherwise it stores the id, sets media iff the id contains "_media" and cdn iff it contains "_cdn", and changes no other field. `IntVal` models `intval` (line 233) and `Contains` models `strpos(...) !== false` (lines 238-239) |
| Connection.ConnectionContext.GetIntDc | src/danog/MadelineProto/Stream/ConnectionContext.php:254-264 | computed by `DcId.Encode`, so its guarantees carry over; for a valid stored DC the result it decodes to that id with the test and media flags, it is never 0, and it is negative iff media |
| Connection.ConnectionContext.AddStream | src/danog/MadelineProto/Stream/ConnectionContext.php:285-290 | appends exactly one (name, extra) descriptor, keeps the earlier ones, points the cursor at the new top, and changes no other field |
| Connection.ConnectionContext.GetStreamName | src/danog/MadelineProto/Stream/ConnectionContext.php:317-320 | the name at the cursor when the cursor is inside the stack, None otherwise; it reads and never moves the cursor |
| Connection.ConnectionContext.HasStreamName | src/danog/MadelineProto/Stream/ConnectionContext.php:326-334 | true iff some descriptor anywhere in the stack has the name, whatever the cursor |
| Connection.ConnectionContext.GetStream | src/danog/MadelineProto/Stream/ConnectionContext.php:338-347 | moves the cursor down by exactly one; succeeds iff the old cursor was inside the stack, with the stream built from that descriptor, whose name is the one `getStreamName` reported. `Instantiate` (lines 340-344) builds it, attaching the extra iff the class is a proxy stream. On a non-empty stack a pop fails only once the cursor is below 0. The stack is untouched |
| Connection.ConnectionContext.ConnectChain | src/danog/MadelineProto/Stream/ConnectionContext.php:338-347 | repeated pops as the decorators make them yield exactly `Assembly` from the old cursor. They leave the cursor at `CursorAfter`: the old cursor minus the number of streams popped on success, and -2 or one below the old cursor on failure |
| Connection.ConnectionContext.GetCtx | src/danog/MadelineProto/Stream/ConnectionContext.php:164-167 | returns a new object equal to this context in every field, so popping from it cannot move this context's cursor |
| Connection.ConnectionContext.ForkAndConnect | src/danog/MadelineProto/Stream/ConnectionContext.php:164-167 | a connection attempt on a fork yields what one on this context would, and leaves this context unmodified |
| Connection.ConnectionContext.GetInputClientProxy | src/danog/MadelineProto/Stream/ConnectionContext.php:353-363 | None iff no descriptor is an obfuscated stream with a non-null address; otherwise the extra of the first such descriptor in push order, with "_" set to "inputClientProxy"; the stack is not modified |
| Connection.ConnectionContext.GetName | src/danog/MadelineProto/Stream/ConnectionContext.php:367-389 | the URI, " (TLS)" iff secure, " test" or " main", " DC " and the DC, ", via ipv6" or ", via ipv4", " using ", then the streams top first, each with its namespace stripped and its extra appended when that is a non-empty array and the stream is not DefaultStream, separated by " => "; None while no URI is set. `Header` writes lines 369-378 and `Render` writes one stream as lines 383-386 do |
| Connection.PopOrderExample | src/danog/MadelineProto/Stream/ConnectionContext.php:338-347 | after pushing A, B and C (lines 285-290), three pops yield C, B and A and a fourth fails |
| Connection.ForkExample | src/danog/MadelineProto/Stream/ConnectionContext.php:164-167 | after a fork of a two-stream context has popped B and then A, the original still pops B first |
| MemoryDb.CountAfterSet | src/danog/MadelineProto/Db/MemoryArray.php:43-46 | storing under a new key grows the table by one; overwriting a key keeps its size |
| MemoryDb.CountAfterUnset | src/danog/MadelineProto/Db/MemoryArray.php:51-54 | removing a present key shrinks the table by one; removing an absent key keeps its size |
| MemoryDb.DbTable.GetArrayCopy | src/danog/MadelineProto/Db/MemoryArray.php:36 | a copy of the other backend's contents |
| MemoryDb.DbTable.Clear | src/danog/MadelineProto/Db/MemoryArray.php:37 | empties the other backend |
| MemoryDb.MemoryArray.constructor | src/danog/MadelineProto/Db/MemoryArray.php:18-21 | holds exactly the given entries |
| MemoryDb.MemoryArray.GetInstance | src/danog/MadelineProto/Db/MemoryArray.php:26-41 | returns the previous memory table itself; moves another backend's contents into a new table and leaves that backend empty; wraps an array in a new table; turns null into a new empty table |
| MemoryDb.MemoryArray.OffsetGet | src/danog/MadelineProto/Db/MemoryArray.php:61-64 | the stored value when the key is set; None (PHP null) instead of an error when it is not |
| MemoryDb.MemoryArray.Set | src/danog/MadelineProto/Db/MemoryArray.php:43-46 | afterwards the key is set (`isset`, lines 47-50) with the new value (`offsetGet`, lines 61-64), every other key keeps its value, and `count` (lines 71-74) grows by one iff the key was new |
| MemoryDb.MemoryArray.Unset | src/danog/MadelineProto/Db/MemoryArray.php:51-54 | `unset`, and `offsetUnset` at lines 66-69: afterwards the key is not set and every other key keeps its value; a missing key leaves the table as it was; the count drops by one iff the key was set |
| MemoryDb.MemoryArray.Clear | src/danog/MadelineProto/Db/MemoryArray.php:76-79 | leaves the table empty: count 0 and no key set |

`MemoryDb.MemoryArray.Isset` models both `isset` and `offsetExists`
(src/danog/MadelineProto/Db/MemoryArray.php:47-50, 56-59). `Count` models
`count` (lines 71-74). `Unset` models both `unset` and `offsetUnset`, which
do the same thing.

The getters `getDc`, `isTest`, `isMedia`, `isCDN`, `isDns`, `isSecure`,
`getIpv6`, `getSocketContext`, `getCancellationToken`, `getReadCallback` and
`hasReadCallback` are the class's fields, read directly.

## Left out

- The return value of the fluent setters (`return $this`) is not modelled. Callers chain them, but they return no new information.
- The DC is stored as a string; its default is "0", where the source's default is the integer 0.
- Connection.ConnectionContext.SetDc: the file declares `strict_types=1`, so as written every id that passes the range check throws a `TypeError`. A string id fails when it is assigned to the `int $dc` property (line 237). An integer id fails when it is passed to `strpos` (line 238). So `setDc` never returns for an accepted id. The `Pass` branch, with its `media` and `cdn` flags, models the evident intent, not the code as written.
- `PhpStrings.IntVal`: handles only leading whitespace, an optional sign and leading decimal digits. Exponent and fraction forms such as "1e3" are not modelled. Saturation at the platform integer limit is not modelled either; it cannot change whether an id lies in [1,1000].
- `Connection.ConnectionContext.GetStream`: at a cursor outside the stack, the read at line 340 finds an undefined key, which PHP 8 reports only as a warning. The destructuring yields nulls, and the call then throws at line 341, where `new $clazz()` gets a null class name. By then `key--` has already run. The model returns `Err(ChainExhausted)` and still moves the cursor down, as the post-decrement does.
- `Connection.ConnectionContext.GetStream`: does not model building the live stream object, `setExtra` or the network `connect`. It returns the popped descriptor as a `Layer`, with its extra attached when `isProxy` says the class is a proxy stream. The prefix `$buffer` is only forwarded to `connect` and is not modelled.
- Decorator streams popping the stream they wrap are modelled through the `wraps` parameter of `ConnectChain`. Which stream classes are decorators is not part of this model.
- Stream extras are modelled as null or a string-keyed array of scalars. Scalar extras and nested arrays are not modelled.
- Connection.Render: `json_encode` is the parameter `json`, not a serialiser.
- PhpStrings.ShortName: models `preg_replace('/.*\\\\/', '', ...)` for names without a line break, where `.` does not match a newline.
- URIs are opaque strings; parsing with `League\Uri\Http::createFromString` is not modelled. `getStringUri` is the stored string.
- Reading the URI before `setUri`, or the socket context or token before they are set, throws in PHP because the typed properties are uninitialised. `$readCallback` (line 107) is untyped and starts as null, which `hasReadCallback` (lines 303-306) tests. `getReadCallback` throws on null only because of its `callable` return type (line 310). The model uses `None` for all four. `Connection.ConnectionContext.GetName` returns `None` where the source would throw, and `Connection.ConnectionContext.GetStreamName` returns `None` where the source reads a missing entry and then fails its `string` return type.
- PHP `clone` is shallow, so the URI, socket context and token objects are shared between a context and its copy. They are immutable values here, so sharing them and copying them cannot be told apart.
- `__toString` is `getName` and is not modelled separately.
- `MemoryDb.MemoryArray.GetInstance`: the log line and `DriverArray::initStartup` are side effects in classes that are not part of this model. The `settings` argument is unused in the source and is an opaque value here.
- MemoryArray: the order of entries, PHP's key normalisation (numeric strings become integer keys), the `ArrayIterator` flags and `getIterator` are not modelled. A key is an integer or a string, and two keys are equal only if they are the same kind and value.
- `Connection.ConnectionContext.GetStream` fails explicitly where the source's out-of-range read fails only implicitly. `Connection.ConnectionContext.GetName` writes the header before the stream names, as the code does.
