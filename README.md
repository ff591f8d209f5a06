# nebulant-cli core, modelled in Dafny

Nebulant runs blueprints: graphs of actions that call cloud providers, HTTP
endpoints and local tools. This project models the sequential core of the
Go implementation and proves properties of it:

- **Base** (`base/actors.go`): the context-kind and run-status enumerations,
  and `NewActionOutput`, which builds an output holding one storage record
  that points back at it. `ActionOutput` and `StorageRecord` are classes so
  that this cycle can be stated.
- **Nsterm** (`nsterm/raw_ldisc.go`): the raw line discipline. It relays
  bytes between two endpoints, modelled as FIFOs, with `io.CopyN` semantics
  and an append-only error list.
- **Ipc** (`ipc/ipc_windows.go`): the named-pipe address of a session and the
  attach client `Read`. `Read` writes one space-joined request and returns
  what one read into a 1024-byte buffer delivered.
- **HetznerActors**, **HetznerFirewall** and **HetznerIso**
  (`providers/hetzner/actors/`):
  - the dispatch table and the output helpers;
  - the firewall and ISO actions;
  - the string-to-int64 ID wrappers, with `strconv.ParseInt(s, 10, 64)`
    semantics (module **Strconv**).

  Every run function returns an effect log and an outcome, so that the order
  "decode, rehearsal stop, interpolate, call the client" can be proved.
- **GenericHttp** (`providers/generic/actors/http.go`): the HTTP request
  actor. This covers:
  - body construction by body type;
  - escaping of multipart text-part names;
  - the user-header merge, which never overwrites a header already set;
  - recording the response, with an empty body when Content-Length ≤ 0.
- **Subsystem** (`subsystem/subsystem.go`): the CLI layer. This covers:
  - flag help lines and their padding;
  - the command listing of the usage text, sorted with the byte order of
    Go strings (module **StringOrder**);
  - the deprecated `-s` check;
  - dispatch of a sub-command, with the fallback to `run`;
  - the stream defaults of `NBLcommand.Run`.

The outcome of an action is `Outcome`: `Rehearsed` is the `(nil, nil)` a
rehearsal returns, `Failed(err)` is an error, and `Produced(value, valueId)`
carries the arguments that `NewActionOutput` receives. `Base.Materialize`
turns an outcome into the Go return pair of objects.

Foreign code is passed in as function-typed parameters ("oracles"). This
covers:
- JSON decoding and validation;
- store interpolation;
- the hcloud client and the HTTP transport;
- files, MIME sniffing and the Windows pipe;
- terminal set-up and a command's `Call`.

## Model

| member | source | states |
|---|---|---|
| Base.ContextType.Code | base/actors.go:35-39 | the three context kinds take the iota values 0, 1, 2 |
| Base.ContextTypeOf | base/actors.go:35-39 | an integer names a context kind exactly when it is 0, 1 or 2, and then that kind's code is the integer |
| Base.ContextTypeCodes | base/actors.go:35-39 | Regular=0, Thread=1, Join=2, and decoding a kind's code gives back the kind |
| Base.RunStatus.Code | base/actors.go:41-46 | the four run statuses take the iota values 0..3 |
| Base.RunStatusCodesFollowLifecycle | base/actors.go:41-46 | Ready=0 < Arranging=1 < Running=2 < Done=3: each status's successor has the next code, and only Done has none |
| Base.ActionOutput.constructor | base/actors.go:101-103 | a new output carries the action and no records |
| Base.StorageRecord.constructor | base/actors.go:104-111 | a record carries the action, the value as both raw source and value, and the back-reference; its ValueID and RefName are empty |
| Base.NewActionOutput | base/actors.go:100-120 | fresh output with exactly one fresh record whose Aout is the output; the record carries the action and the value twice; ValueID is the given ID or ""; RefName is the action's output name or "" |
| Base.Materialize | base/actors.go:100-120 | an outcome becomes the Go return pair: an output exactly when a value was produced, and one that Holds that value and ID; the error exactly when it failed |
| Nsterm.CopyN | nsterm/raw_ldisc.go:44 | io.CopyN over FIFOs: moves min(n, available) bytes in order, loses none, and reports EOF exactly when fewer than n were available |
| Nsterm.CopyNExact | nsterm/raw_ldisc.go:44 | with at least n bytes pending, exactly the first n move and there is no error |
| Nsterm.CopyNCompose | nsterm/raw_ldisc.go:43-65 | two copies of n and then m bytes move the same bytes as one copy of n + m |
| Nsterm.RawLdisc.constructor | nsterm/raw_ldisc.go:23-25 | a new relay has both endpoints unset and no errors |
| Nsterm.RawLdisc.SetMustarFD | nsterm/raw_ldisc.go:35-37 | sets the mustar endpoint; sluva and the errors are unchanged |
| Nsterm.RawLdisc.SetSluvaFD | nsterm/raw_ldisc.go:39-41 | sets the sluva endpoint; mustar and the errors are unchanged |
| Nsterm.RawLdisc.ReceiveMustarBuff | nsterm/raw_ldisc.go:43-47 | mustar→sluva transfer as CopyN; the error list grows by the copy's error exactly when there was one |
| Nsterm.RawLdisc.ReceiveSluvaBuff | nsterm/raw_ldisc.go:59-65 | the mirror transfer sluva→mustar, with the same count and error behaviour |
| Nsterm.RawLdisc.IOctl | nsterm/raw_ldisc.go:67-69 | does nothing: the relay is unchanged |
| Nsterm.RawLdisc.Close | nsterm/raw_ldisc.go:71-73 | Close returns no error |
| Ipc.PipePath | ipc/ipc_windows.go:28 | the pipe address is the namespace `\\.\pipe\` and `ipc_`, followed by the session ID |
| Ipc.PipePathInjective | ipc/ipc_windows.go:27-39 | the server's and client's addresses agree exactly when the session IDs are equal |
| Ipc.Frame | ipc/ipc_windows.go:45 | the request is the session ID, a space, the channel ID, a space and the message, each field at its own offset |
| Ipc.FrameRoundTrip | ipc/ipc_windows.go:45 | when the IDs contain no space, splitting the request at its first two spaces gives back the three fields |
| Ipc.FrameAmbiguous | ipc/ipc_windows.go:45 | a space inside an ID makes two different field triples produce the same request |
| Ipc.Read | ipc/ipc_windows.go:37-57 | a dial failure returns ("", err) after the dial alone; a write failure returns ("", err) after dial, one write of the request and Close, with no read; otherwise the calls are exactly dial, write, one read into 1024 bytes and Close, a read failure returns ("", err), and success returns at most the first 1024 bytes of that read |
| HetznerActors.Logger.Duplicate | providers/hetzner/actors/actors.go:51 | the duplicate is a new logger with the same action ID |
| HetznerActors.Logger.SetActionID | providers/hetzner/actors/actors.go:52 | tags the logger with the ID |
| HetznerActors.ActionContext.constructor | providers/hetzner/actors/actors.go:53-58 | client, action, store and logger as given; Rehearsal false |
| HetznerActors.NewActionContext | providers/hetzner/actors/actors.go:50-59 | fresh context with client, action and store as given and Rehearsal false; its logger is a fresh duplicate tagged with the action's ID; the caller's logger keeps its ID |
| HetznerActors.NextType.Code | providers/hetzner/actors/actors.go:66-73 | the three next-types take codes in 0..2 |
| HetznerActors.NextTypeCodes | providers/hetzner/actors/actors.go:66-73 | NextOKKO=0, NextOK=1, NextKO=2 |
| HetznerActors.ActionFuncMap | providers/hetzner/actors/actors.go:81-150 | every entry of the dispatch table has N == NextOKKO |
| HetznerActors.DeleteImageLooksUpImage | providers/hetzner/actors/actors.go:90-91 | "delete_image" maps to the same layout as "findone_image" (FindOneImage) |
| HetznerActors.FirewallAndIsoEntries | providers/hetzner/actors/actors.go:115-124 | all seven firewall names and both ISO names map to their run functions, each with NextOKKO |
| HetznerActors.UnmarshallHCloudToSchema | providers/hetzner/actors/actors.go:37-48 | a body read error is returned first; otherwise the decode error; succeeds exactly when both succeed, with the decoded value |
| HetznerActors.GenericHCloudOutput | providers/hetzner/actors/actors.go:154-162 | fails exactly when unmarshalling fails, with that error; otherwise produces the decoded value with no ValueID; never the rehearsal result |
| HetznerActors.RehearsalCallsNothing | providers/hetzner/actors/firewall.go:129-135 | under rehearsal a run that keeps the ordering makes no client call and returns only (nil, nil) or the decode error |
| HetznerActors.Prologue | providers/hetzner/actors/firewall.go:129-143 | the shared opening: decode (error → return), rehearsal → (nil, nil), interpolate (error → return); proceeds exactly when decode succeeds, no rehearsal and interpolation succeeds, with the interpolated input |
| HetznerActors.CallAndOutput | providers/hetzner/actors/firewall.go:145-153 | appends exactly one client call; a client error is returned; otherwise GenericHCloudOutput's outcome |
| HetznerActors.SelectOne | providers/hetzner/actors/firewall.go:212-231 | exactly one result is selected; no records or none in the first → "no … found"; more than one → "too many results" |
| HetznerFirewall.ParseID | providers/hetzner/actors/firewall.go:66-72 | succeeds exactly on a base-10 int64 literal, with its value; otherwise "cannot use '<id>' as int64 ID" joined with the ParseInt error |
| HetznerFirewall.UnwrapFirewall | providers/hetzner/actors/firewall.go:66-72 | succeeds iff the ID is a valid base-10 int64, carrying that ID; the error names the ID |
| HetznerFirewall.UnwrapServer | providers/hetzner/actors/firewall.go:36-42 | the same for a server reference |
| HetznerFirewall.UnwrapResource | providers/hetzner/actors/firewall.go:49-59 | type and label selector are copied; a missing server stays missing; a present one is converted and its failure returned |
| HetznerFirewall.UnwrapResourcesCorrect | providers/hetzner/actors/firewall.go:259-268 | the list converts exactly when every resource does, pointwise and in order; otherwise the first failure's error is returned |
| HetznerFirewall.CreateFirewall | providers/hetzner/actors/firewall.go:98-122 | decode, rehearsal stop, interpolate, then one Create call with the interpolated options and its output |
| HetznerFirewall.DeleteFirewall | providers/hetzner/actors/firewall.go:124-154 | same ordering; an ID that does not convert aborts before the call; success is one record with nil value and no ValueID |
| HetznerFirewall.FindFirewalls | providers/hetzner/actors/firewall.go:156-179 | same ordering, then one List call with the interpolated options |
| HetznerFirewall.FindOneFirewall | providers/hetzner/actors/firewall.go:181-236 | with an ID: it must convert, then one GetByID call whose error is returned, then the decode error is returned, or else the decoded firewall is produced; without: FindFirewalls, whose error passes through, then zero → "no firewall found", more than one → "too many results", one → that firewall; ValueID is the ID in decimal |
| HetznerFirewall.FindOneFirewallValueIdRoundTrip | providers/hetzner/actors/firewall.go:234-235 | the recorded ValueID converts back to the firewall's ID |
| HetznerFirewall.ApplyFirewallToResources | providers/hetzner/actors/firewall.go:238-275 | same ordering; the firewall ID must convert; resources are converted in order and the first failure aborts with no client call; otherwise one ApplyResources call with the converted list |
| HetznerFirewall.RemoveFirewallFromResources | providers/hetzner/actors/firewall.go:277-305 | same ordering; the firewall ID must convert before the one RemoveResources call |
| HetznerFirewall.SetRulesFirewall | providers/hetzner/actors/firewall.go:307-335 | same ordering; the firewall ID must convert before the one SetRules call |
| HetznerIso.FindISOs | providers/hetzner/actors/iso.go:34-57 | decode error returned; rehearsal → (nil, nil) before interpolating; interpolation error returned without listing; otherwise one List call and its output |
| HetznerIso.FindOneISO | providers/hetzner/actors/iso.go:59-81 | FindISOs's errors and rehearsal pass through, and it makes the only calls; zero ISOs → "no iso found", more than one → "too many results", one → that ISO with its ID in decimal as ValueID |
| Strconv.ParseInt | providers/hetzner/actors/firewall.go:67 | errors are NumErrors of ParseInt naming the input |
| Strconv.ParseIntCorrect | providers/hetzner/actors/firewall.go:67 | ParseInt(s, 10, 64) succeeds exactly on an optional sign and at least one digit within the int64 range, with the literal's value |
| Strconv.ParseIntOutOfRange | providers/hetzner/actors/firewall.go:67 | a well-formed literal outside the int64 range fails with a range error |
| Strconv.ScanDigitsCorrect | providers/hetzner/actors/firewall.go:67 | the digit scan accepts exactly all-digit strings up to 2^64 - 1, with their value, and reports larger ones as out of range |
| Strconv.NatDigitsCorrect | providers/hetzner/actors/firewall.go:234 | the decimal rendering of a natural number is a non-empty digit string with that value |
| Strconv.FormatParseRoundTrip | providers/hetzner/actors/firewall.go:234 | any int64 rendered with %v parses back to itself |
| GenericHttp.ActionContext.constructor | providers/generic/actors/http.go:115-119 | the context fields HttpRequest reads, as given |
| GenericHttp.EscapeQuotes | providers/generic/actors/http.go:172 | escaping never shortens the name and leaves a name without `\` or `"` unchanged |
| GenericHttp.EscapeQuotesRoundTrip | providers/generic/actors/http.go:172-173 | an escaped name read back as a quoted string (section 4.2 of RFC 7578) is exactly the name, and the closing quote is found where it was written |
| GenericHttp.ContentDispositionNames | providers/generic/actors/http.go:172-173 | a text part's Content-Disposition is `form-data; name="…"`, whose quoted string reads back as the field name |
| GenericHttp.TextPartHeader | providers/generic/actors/http.go:171-178 | a text part's header holds exactly Content-Disposition with the escaped name, and Content-Type: the given one, else "text/plain" |
| GenericHttp.PartOf | providers/generic/actors/http.go:146-188 | a file part whose file cannot be read fails with that error; a readable file becomes a file part with the field name, the file's name and its bytes; a text part carries its escaped header and its value; other types are skipped |
| GenericHttp.PartsCorrect | providers/generic/actors/http.go:145-189 | writing the parts fails exactly when some file part cannot be read, with the error of the first such part; otherwise the j-th part written is what the j-th file or text part contributes |
| GenericHttp.WriteParts | providers/generic/actors/http.go:145-189 | the parts loop computes Parts, stopping at the first unreadable file |
| GenericHttp.AddAllCorrect | providers/generic/actors/http.go:212-216 | after adding every pair, each given name appears and holds all its values in the order given |
| GenericHttp.EncodeValues | providers/generic/actors/http.go:212-216 | the url.Values loop computes AddAll |
| GenericHttp.MergeKeepsSetHeaders | providers/generic/actors/http.go:269-273 | a header already set to a non-empty value is neither interpolated nor overwritten; every key set comes from the request or the user headers |
| GenericHttp.MergeTouchesOnlyUserKeys | providers/generic/actors/http.go:269-280 | no header of the request is removed, and a key no user header names keeps its value |
| GenericHttp.MergeSetsUserKeys | providers/generic/actors/http.go:269-280 | when no interpolation fails, every user header key is set in the request |
| GenericHttp.MergeSetsUserHeaders | providers/generic/actors/http.go:269-280 | when no interpolation fails, a user header whose key was not already set and is named once holds its interpolated value |
| GenericHttp.MergeHeaders | providers/generic/actors/http.go:269-280 | the header loop computes Merge: skip keys already set, otherwise interpolate and set, and stop at the first interpolation error |
| GenericHttp.RequestBody | providers/generic/actors/http.go:124-266 | form-data → the decode error, the first unreadable file's error, or the written parts with "multipart/form-data"; x-www-form-urlencoded → the decode error, or every name with all its values and "application/x-www-form-urlencoded"; raw → the decode error, or the raw text with no Content-Type; binary → the decode error, the file's error, or the file's bytes with their sniffed type; none or unknown → empty body and no Content-Type |
| GenericHttp.PreparedContentType | providers/generic/actors/http.go:197-280 | the request keeps method and URL; its Content-Type is the one the body type fixes, which no user header replaces; for raw, none and unknown types only a user header can supply one |
| GenericHttp.RecordResponse | providers/generic/actors/http.go:294-334 | status, code and header text are recorded; the body is recorded only when Content-Length > 0 and is "" otherwise; a header-write error is returned; with Content-Length > 0 a body-read error is returned |
| GenericHttp.Delivered | providers/generic/actors/http.go:288-337 | a transport error is returned; otherwise RecordResponse's error is returned, or one record with the result and no ValueID |
| GenericHttp.HttpRequest | providers/generic/actors/http.go:110-338 | parse first (error returned even under rehearsal); rehearsal → (nil, nil) with nothing sent; otherwise an error while preparing (body, request, header interpolation) sends nothing; else exactly the prepared request is sent and delivered |
| StringOrder.BelowTotal | subsystem/subsystem.go:187 | any two strings are ordered one way or the other |
| StringOrder.BelowAntisymmetric | subsystem/subsystem.go:187 | strings ordered both ways are equal |
| StringOrder.BelowTransitive | subsystem/subsystem.go:187 | the order is transitive |
| StringOrder.SortedUnique | subsystem/subsystem.go:181-187 | two ascending sequences without repeats holding the same strings are equal, so the listing order is determined by the registry |
| StringOrder.SortStrings | subsystem/subsystem.go:187 | sort.Strings returns its input ascending, as a permutation |
| Subsystem.SCType.Code | subsystem/subsystem.go:47-51 | the three sections take codes 0..2 |
| Subsystem.SCTypeCodes | subsystem/subsystem.go:47-51 | SecMain=0, SecRuntime=1, SecHidden=2, and distinct sections have distinct codes |
| Subsystem.NBLcommand.constructor | subsystem/subsystem.go:53-64 | a command with the given settings and no flag set yet |
| Subsystem.NBLcommand.Run | subsystem/subsystem.go:66-75 | keeps the flag set; a stream that was not set becomes the terminal's and a set one is left alone; nothing else changes; returns what Call returns on that view |
| Subsystem.DefaultSuffix | subsystem/subsystem.go:96-98 | " (default X)" is appended exactly when the default is neither "" nor "false" |
| Subsystem.FlagTextLayout | subsystem/subsystem.go:86-98 | a help line is `  -name ` and the placeholder, blanks up to the usage column, the usage, then the default; the column is max(head length, 25 − placeholder length), because the placeholder is counted twice |
| Subsystem.FlagLine | subsystem/subsystem.go:85-98 | the builder loop writes FlagText: padding of max(0, 25 − (len(line) + len(name))) spaces |
| Subsystem.PrintDefaults | subsystem/subsystem.go:83-101 | one help line per flag, each followed by a newline, in the order the flag set visits them |
| Subsystem.HelpListSplits | subsystem/subsystem.go:192-199 | each listed command goes to exactly one of the two sections |
| Subsystem.VisibleCommands | subsystem/subsystem.go:181-186 | keeps each registered command that is not hidden, once |
| Subsystem.CommandSections | subsystem/subsystem.go:192-199 | main commands' helps are written in listing order; runtime commands' helps are held back in the same order |
| Subsystem.WriteAll | subsystem/subsystem.go:201-203 | the held-back runtime helps are written one after another in order: the output is their concatenation |
| Subsystem.Usage | subsystem/subsystem.go:178-206 | the listed commands are exactly the non-hidden ones, ascending and without repeats; the text is the header, the flag lines, the main helps, the runtime section with the runtime helps, and the trailer |
| Subsystem.PrepareCmd | subsystem/subsystem.go:103-161 | fails exactly when the command upgrades the terminal and that fails, with "cannot init term :(" joined with the error |
| Subsystem.ConfArgs | subsystem/subsystem.go:208-216 | a parse error is returned; a set -s gives "deprecated flag err"; otherwise no error |
| Subsystem.FallbackArgs | subsystem/subsystem.go:236-240 | the fallback arguments are "run", then "-f" exactly when ForceFile is set and true, then the remaining arguments unchanged |
| Subsystem.Run | subsystem/subsystem.go:219-244 | the registered command, or `run` when none is registered, is prepared; a preparation error gives (1, err) and changes nothing; otherwise the command runs on the program's command line, or `run` runs on a flag set over the fallback arguments |

## Left out

- The node engine (`IActionContext`: Done, Cancel, the join barrier, run-status transitions) exists in base/actors.go only as an interface. Its essence is channels and concurrency, so only the constants are modelled.
- `StorageRecord` values are generic (`V`) rather than `interface{}`; `RefName` uses the action's optional output name.
- Nsterm: the endpoints are byte FIFOs, not `io.ReadWriteCloser`s. `ReceiveMustarBuff`/`ReceiveSluvaBuff` require both endpoints to be set. This only excludes endpoints that were never set, and every caller sets them; the source's `io.CopyN` with n ≤ 0 would return (0, nil) without touching a nil reader, and that case is not modelled for unset endpoints. The only copy error modelled is EOF on a short source. `Close` releases nothing, as in the source.
- Ipc: `listen` is reduced to its path; the winio pipe is an oracle. Strings stand for their bytes, one character per byte. The `defer c.Close()` is recorded as a final Close step.
- HetznerActors.ActionFuncMap: the functions it names are opaque tags. The table refers to `ApplyToResourcesFirewall`, while firewall.go defines `ApplyFirewallToResources`. This table is the source's Go map written as a lookup.
- Hetzner client, store and logger are opaque handles in `ActionContext`. Their behaviour is passed in through the environment of each actor: decoding and validating parameters, `DeepInterpolation` (returning the rewritten value) and the client calls.
- Logging, the `ctx.Logger` calls and the debug output are not modelled.
- HetznerFirewall: the records-count checks (`len(aout.Records) <= 0`) can never fire, because `NewActionOutput` always makes one record. The model keeps a single record.
- HetznerFirewall.FindOneFirewall: the second rehearsal check after the listing (providers/hetzner/actors/firewall.go:217-219) cannot fire. A rehearsal already returned earlier.
- HetznerFirewall: a server reference whose ID pointer is nil would panic in the source. The model's IDs are always present strings.
- HetznerFirewall.RemoveFirewallFromResources: the response is decoded with the request type `FirewallActionRemoveFromResourcesRequest`, as written. Both are opaque documents here.
- GenericHttp: the parameters are decoded with `json.Unmarshal` without validation, so a missing method or URL would be a nil dereference in the source. The model's fields are plain strings.
- GenericHttp: the multipart wire encoding is not modelled. This includes:
  - the part headers of file parts;
  - the boundary, which the "multipart/form-data" header set at providers/generic/actors/http.go:197 omits;
  - the closing boundary, which the deferred `w.Close()` writes only after the request has gone.

  The body is the list of parts written. Writes to the in-memory buffer are taken never to fail.
- GenericHttp: `url.Values.Encode` ordering is left out; the body is the values map.
- GenericHttp: header-name canonicalisation is abstracted to equality of keys, and a header holds one value per key.
- GenericHttp: `os.Open`, `Stat` and `ReadAll` of a file are one oracle (`readFile`), as are `http.DetectContentType`, `http.NewRequest` errors and the transport.
- GenericHttp.RecordResponse: gzip decoding and the body copy are one oracle result (`body`). `resp.Header.Write` is another (`headerText`).
- Subsystem: terminal upgrade, colours, the welcome banner, the DEBUG log messages and provider/validator registration in `PrepareCmd` are foreign. Only the terminal upgrade's error is modelled.
- Subsystem: the flag package's parser, `flag.UnquoteUsage` and `VisitAll` are foreign. A flag's placeholder and usage are given as fields, the flag list comes in visiting order, and ConfArgs receives the parse result.
- Subsystem.ConfArgs: the flag registrations and the text printed on errors (the flag package's own `PrintDefaults`, and the deprecation notice) are not modelled.
- Subsystem.Usage: the registry `NBLCommands` is a map argument, and the usage text is returned instead of written to the flag set's output.
- Subsystem.Run: requires `sc` or `run` to be registered; otherwise the source dereferences a nil command. In the fallback the new flag set keeps every argument positional, because parsing stops at the leading "run"; the ignored parse result is not modelled.
- Subsystem.NBLcommand.Run: `Call` is an oracle that sees the command's flag set and streams. Changes a `Call` makes to the command are not modelled.
- `CommandLine()` and the `Actor`/`IActor` types only return or hold values, and are not modelled.
