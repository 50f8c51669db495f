# korpc protoc plugin pipeline, modelled in Dafny

korpc is a command-line tool that turns a gRPC service definition into Knative services,
one per method. When protoc runs it as a plugin, the `korpc` binary reads a
`CodeGeneratorRequest`. It decodes the request's parameter, a base64-encoded JSON record
called `Stuff`, which names one of five registered backends. It looks that backend up in a
registry and returns what the backend generates. A failure goes back to protoc as the error
of an empty response.

Every backend keeps the files of the request that protoc asked to be generated. It visits
their services and methods in nested order, and works in one of two modes:

- **Meta mode**, when the parameter names no method. The backend writes a `korpc.go`. Its
  `//go:generate` lines re-run protoc with korpc once per method, each with its own encoded
  parameter and an include path leading back to the root of the protos.
- **Method mode**. The backend finds the named method and writes that method's file:
  - the gRPC `main` (entrypoint);
  - the `korpc.go` that runs the scaffold into the method's package (methods);
  - the unimplemented stub (scaffold);
  - the Knative `Service` manifest (config).

The gateway backend has only one mode. It writes the single Istio `VirtualService` that
routes every method's path to that method's service.

The model follows that structure, one module per Go package:

| module | what it is |
|---|---|
| `Parameter` | the parameter codec and the nesting escape |
| `Base64`, `Utf8`, `Json` | the layers of that codec |
| `Paths` | `filepath.Clean`, `Join` and `Dir` |
| `Text` | `strings.ToLower`, `%q`, decimal printing, sorted map keys |
| `Install` | `toroot` and the protoc command line |
| `Descriptor` | the request and response, the descriptors, and the scan order of the methods to generate |
| `Backend` | what the backends share: the `codegen` set, the proto paths, the first-match search, the meta `//go:generate` lines |
| `Entrypoint`, `Methods`, `Scaffold`, `Config`, `Gateway` | the five backends |
| `ConfigTemplate`, `GatewayTemplate` | the two manifest templates, rendered line by line |
| `Protoplugin` | the registry and the dispatch |

Each Go loop is a `method` with loop invariants. The method is proved equal to a function
that states the result of the whole scan. The properties the source promises are lemmas
about those functions. The Go source is not executed; the only evidence is the verifier.

## Model

| member | source | states |
|---|---|---|
| Parameter.String | pkg/parameter/type.go:38-40 | the rendering is the name, ` (`, service `.` method, then `)`, and nothing else |
| Parameter.FromEncode | pkg/parameter/type.go:50-76 | decoding the encoding of any record gives back the record, field for field, empty `omitempty` fields included |
| Parameter.FromMembers | pkg/parameter/type.go:66-76 | the encoded text of any member list that fills a fresh record decodes to that record |
| Parameter.FieldOf | pkg/parameter/type.go:25-33 | a key fills exactly the field whose tag it equals up to case folding; it fills none precisely when it folds to no tag; no key folds to two tags |
| Parameter.FieldOfTag | pkg/parameter/type.go:25-33 | every field is found under its own JSON tag |
| Parameter.FieldOfUpperCase | pkg/parameter/type.go:25-33 | the key `NAME` fills `name` (the general rule is in `FieldOf`) |
| Parameter.FieldOfLongS | pkg/parameter/type.go:25-33 | the long s `ſ` folds to `s`, so `ſervice` fills `service` |
| Parameter.FieldOfUnknown | pkg/parameter/type.go:25-33 | the key `names` fills no field (the general rule is in `FieldOf`) |
| Parameter.MembersOf | pkg/parameter/type.go:50-53 | every field that is not `omitempty` is written, and each `omitempty` field exactly when its value is non-empty; each member is a field's tag paired with its value, each field appears at most once, and members come in field order |
| Parameter.UnmarshalMembers | pkg/parameter/type.go:72-74 | unmarshalling the members of any record into a fresh record gives back that record |
| Parameter.ApplyLastWins | pkg/parameter/type.go:72 | of two members with the same key the later wins, and a `null` member leaves the field as it was |
| Parameter.FromIllegalBase64 | pkg/parameter/type.go:68-71 | text that is not base64 is an error, and no record comes back |
| Parameter.FromNotJson | pkg/parameter/type.go:72-74 | any input whose decoded bytes are not a JSON text is a syntax error |
| Parameter.FromNonObject | pkg/parameter/type.go:72-74 | any input whose JSON text is neither an object nor `null` is a type error |
| Parameter.FromTruncatedText | pkg/parameter/type.go:72-74 | the JSON text `{` is a syntax error |
| Parameter.FromStringText | pkg/parameter/type.go:72-74 | the JSON text `"x"` is a type error |
| Parameter.FromNullText | pkg/parameter/type.go:66-75 | a JSON `null` leaves the fresh record empty, with no error |
| Parameter.NestingEscapeEmpty | pkg/parameter/type.go:42-48 | the escape is empty exactly when the nested directory is |
| Parameter.EscapeShape | pkg/parameter/type.go:46-47 | the escape holds only `/` and `.`, with as many `/` as its input |
| Parameter.EscapeSeparators | pkg/parameter/type.go:46-47 | text made only of `/` and `.` is left as it is |
| Parameter.EscapeIdempotent | pkg/parameter/type.go:46-47 | escaping an escaped path changes nothing |
| Parameter.EscapeAtSep | pkg/parameter/type.go:46-47 | the escape works separately on each side of a `/` or `.` |
| Parameter.EscapeRun | pkg/parameter/type.go:46-47 | a non-empty run without `/` or `.` becomes exactly `..` |
| Parameter.EscapeComponents | pkg/parameter/type.go:46-47 | a path of `n` dot-free components becomes `n` `..` joined by `/` |
| Parameter.EscapeDotted | pkg/parameter/type.go:46-47 | a dot splits a component: `a.b` becomes `.....` |
| Parameter.EscapeTwoComponents | pkg/parameter/type.go:46-47 | `gen/entrypoint` becomes `../..` |
| Base64.Encode | pkg/parameter/type.go:55 | the encoding is `4 * ceil(n / 3)` characters of the standard alphabet or `=` |
| Base64.EncodeShape | pkg/parameter/type.go:55 | the encoding's length is a multiple of 4 and it holds no line break |
| Base64.SextetRoundTrip | pkg/parameter/type.go:55 | each of the 64 alphabet characters decodes to the value it encodes |
| Base64.DecodeEncode | pkg/parameter/type.go:68 | decoding an encoding gives back the bytes |
| Base64.DecodeIgnoresLineBreaks | pkg/parameter/type.go:68 | a `\n` or `\r` anywhere in the input changes nothing |
| Base64.DecodeCleanLength | pkg/parameter/type.go:68 | once line breaks are dropped, input whose length is not a multiple of 4 is rejected |
| Base64.DecodeCleanAlphabet | pkg/parameter/type.go:68 | once line breaks are dropped, accepted input holds only alphabet characters and `=` |
| Base64.DecodeCleanPadding | pkg/parameter/type.go:68 | once line breaks are dropped, accepted input has `=` only in its last two places |
| Base64.DecodeRejectsShort | pkg/parameter/type.go:68 | a quantum cut short (`QQ=`) is rejected |
| Base64.DecodeRejectsEarlyPadding | pkg/parameter/type.go:68 | three padding characters (`Q===`) are rejected |
| Base64.DecodeRejectsPaddingThenData | pkg/parameter/type.go:68 | data after padding in a quantum (`QQ=A`) is rejected |
| Base64.DecodeRejectsInnerPadding | pkg/parameter/type.go:68 | in any input without line breaks, a `=` with at least two characters after it is rejected |
| Base64.DecodeRejectsInnerPaddingExample | pkg/parameter/type.go:68 | `QQ==QUFB`, a padded quantum followed by more input, is rejected |
| Base64.DecodeRejectsForeign | pkg/parameter/type.go:68 | any input holding a character that is not in the alphabet, not `=` and not a line break is rejected |
| Base64.DecodeRejectsForeignExample | pkg/parameter/type.go:68 | `QU*B` is rejected |
| Base64.DecodeLenientBits | pkg/parameter/type.go:68 | after any whole quanta, two final quanta `xy==` (or `xyz=`) that differ only in the low bits the padding discards decode alike, as `StdEncoding` does |
| Base64.DecodeLenientBitsExample | pkg/parameter/type.go:68 | `QR==` decodes to `A` although its unused bits are set |
| Base64.DecodeLenientBreaks | pkg/parameter/type.go:68 | a line break inside a quantum is skipped |
| Utf8.DecodeEncode | pkg/parameter/type.go:50-76 | the bytes of the marshalled text decode back to that text |
| Utf8.DecodeAscii | pkg/parameter/type.go:72 | ASCII bytes decode one character per byte |
| Utf8.DecodeMalformed | pkg/parameter/type.go:72 | a bad byte, an overlong form, a surrogate and a cut-off sequence each become U+FFFD per byte |
| Json.ParseObjectText | pkg/parameter/type.go:50-76 | the object text of any list of string members parses back to those members, in order |
| Json.ParseStringEscaped | pkg/parameter/type.go:51 | every escaped string reads back as itself, whatever follows its closing quote |
| Json.ParseNull | pkg/parameter/type.go:72 | `null` between white space is a JSON text |
| Json.ParseEmpty | pkg/parameter/type.go:72 | no text at all is a syntax error |
| Json.ParseTrailingComma | pkg/parameter/type.go:72 | for any key and value, a member list whose comma is followed by `}` is a syntax error |
| Json.ParseTrailingCommaExample | pkg/parameter/type.go:72 | `"a":null,}` is a syntax error |
| Json.ParseLeadingZero | pkg/parameter/type.go:72 | a number (signed or not) that starts with `0` and a further digit stops after the `0`, so as a whole text it is a syntax error |
| Json.ParseLeadingZeroExample | pkg/parameter/type.go:72 | `01` is a syntax error |
| Text.Lower | pkg/protoplugin/entrypoint/plugin.go:62-63 | each character is lower-cased on its own, so the length is kept |
| Text.GoQuotePlain | pkg/protoplugin/run.go:61 | `%q` of text with no quote, no backslash and no ASCII control character is that text in double quotes |
| Text.NatToString | pkg/protoplugin/config/template.go:39-40 | a number prints as a non-empty run of decimal digits that denotes it, with no leading zero |
| Text.IntToString | pkg/protoplugin/config/template.go:39-40 | an integer prints as `-` exactly when negative, followed by decimal digits that denote its magnitude |
| Text.SortedKeys | pkg/protoplugin/config/template.go:56-59 | the keys a `range` over a map visits are each key once, in strictly increasing order |
| Text.AfterLastDotSuffix | pkg/protoplugin/entrypoint/plugin.go:166-170 | `extract` gives a dot-free suffix of its input, with a `.` just before it unless it is the whole input |
| Paths.CleanIdempotent | pkg/install/protoc.go:53 | cleaning a cleaned path changes nothing |
| Paths.CleanSimple | pkg/install/protoc.go:53 | a path of ordinary components is already clean |
| Paths.CleanTrailingSlash | pkg/install/protoc.go:53 | a trailing slash does not change the cleaned path |
| Paths.JoinSimple | pkg/install/protoc.go:53 | joining two paths of ordinary components concatenates their components |
| Paths.CleanWalkBack | pkg/install/protoc.go:53 | `n` components followed by `n` `..` clean to what came before them, or `.` |
| Paths.DirOfChild | pkg/protoplugin/entrypoint/plugin.go:118-120 | the directory of `d/f` is `d` cleaned |
| Paths.DirNoSlash | pkg/protoplugin/entrypoint/plugin.go:118-120 | a file name without a slash lies in `.` |
| Descriptor.GenSet | pkg/protoplugin/methods/plugin.go:149-152 | the `codegen` set holds exactly the names in `FileToGenerate` |
| Descriptor.TargetsMember | pkg/protoplugin/methods/plugin.go:153-158 | a method is visited exactly when it belongs to a service of a file that is in `FileToGenerate` |
| Descriptor.SkipUngenerated | pkg/protoplugin/gateway/plugin.go:49-51 | a file outside `FileToGenerate` adds nothing to the scan |
| Descriptor.FindFirstSpec | pkg/protoplugin/methods/plugin.go:148-166 | the search finds nothing exactly when no method matches; otherwise it finds a matching method with none before it |
| Descriptor.FindFirstNone | pkg/protoplugin/methods/plugin.go:148-166 | the search comes back empty exactly when no generated file declares the method |
| Descriptor.FindLastSpec | pkg/protoplugin/entrypoint/plugin.go:111-129 | the overwriting scan keeps nothing exactly when no method matches; otherwise it keeps a matching method with none after it |
| Descriptor.FindLastNone | pkg/protoplugin/entrypoint/plugin.go:111-129 | the overwriting scan keeps nothing exactly when no generated file declares the method |
| Descriptor.FirstIsLast | pkg/protoplugin/entrypoint/plugin.go:111-129 | when the name is declared once, the first match and the last match are the same method |
| Descriptor.DeclaredTargets | pkg/protoplugin/scaffold/plugin.go:106-124 | a method is declared in a generated file exactly when the scan visits a matching method |
| Descriptor.ShapeOfFlags | pkg/protoplugin/entrypoint/plugin.go:153-163 | each of the four shapes is chosen for exactly one combination of the streaming flags |
| Descriptor.ExtractExamples | pkg/protoplugin/entrypoint/plugin.go:166-170 | `.pkg.Request` extracts to `Request` and `Plain` to itself |
| Descriptor.AfterDot | pkg/protoplugin/entrypoint/plugin.go:166-170 | after a prefix ending in `.`, `extract` is the dot-free rest |
| Install.ProtoCCmd | pkg/install/protoc.go:56-78 | the binary is the protoc binary and the arguments are the command line `ProtoCArgs` |
| Install.ProtoCArgsShape | pkg/install/protoc.go:56-78 | four include and plugin flags in order; then two output flags for korpc, one for protoc-gen-go, none otherwise; then the protos in order; korpc's `_opt` value decodes to the parameter passed |
| Install.KorpcArgs | pkg/install/protoc.go:65-69 | a korpc command gets `--<name>_out=<out>` and `--<name>_opt=` with the encoding of the parameter, then the protos |
| Install.ProtoCArgsRoot | pkg/install/protoc.go:60 | the third argument includes the root path `toroot` |
| Install.InvertComponents | pkg/install/protoc.go:49-51 | the inverse of `n` dot-free components is `n` `..`; the inverse of `.` is `.` |
| Install.ToRootNested | pkg/install/protoc.go:48-54 | when the nested directory is `out` below `cs`, `toroot` climbs out of `cs`: one `..` per component, or `.` |
| Install.ToRootHere | pkg/install/protoc.go:48-54 | writing into `.`, `toroot` is one `..` per component of the nested directory, or `.` |
| Install.CleanHere | pkg/install/protoc.go:53 | joining `.` onto a directory of ordinary components gives the directory itself |
| Backend.GenerateSet | pkg/protoplugin/gateway/plugin.go:37-40 | the loop fills the `codegen` set with exactly the names in `FileToGenerate` |
| Backend.ProtoFiles | pkg/protoplugin/methods/plugin.go:43-48 | the loop builds the `files` slice of `ProtoPaths` |
| Backend.ProtoPathsIndex | pkg/protoplugin/methods/plugin.go:43-48 | proto path `i` is file `i` of `FileToGenerate` below the escaped nested directory |
| Backend.FindTarget | pkg/protoplugin/methods/plugin.go:148-166 | the early-return search returns the first match of the scan |
| Backend.FindInFile | pkg/protoplugin/methods/plugin.go:153-163 | the search of one file returns its first match, or reports none in the files scanned so far |
| Backend.FindInService | pkg/protoplugin/methods/plugin.go:157-162 | the search of one service returns its first match, or reports none so far |
| Backend.NestedMeta | pkg/protoplugin/entrypoint/plugin.go:45-96 | `doMeta` returns the `MetaOutput` of the scan |
| Backend.NestedMetaFile | pkg/protoplugin/entrypoint/plugin.go:56-86 | one file's turn of the loop appends the lines of that file's methods |
| Backend.NestedMetaService | pkg/protoplugin/entrypoint/plugin.go:60-85 | one service's turn of the loop appends the lines of its methods |
| Backend.NestedMetaMethod | pkg/protoplugin/entrypoint/plugin.go:61-84 | one method's turn of the loop appends its two lines |
| Backend.NestedMethodLines | pkg/protoplugin/entrypoint/plugin.go:62-83 | the loop body computes the `mkdir` line and the protoc line of its method |
| Backend.NestedMetaLine | pkg/protoplugin/entrypoint/plugin.go:53-86 | line 0 is `package <kind>`; method `n` of the scan owns line `2n+1`, the `mkdir` of its directory, and line `2n+2`, its protoc command |
| Backend.NestedInvocation | pkg/protoplugin/entrypoint/plugin.go:64-79 | each sub-invocation writes into the method's directory; its `_opt` value decodes to the nested parameter; the protos come last, unchanged |
| Backend.NestedDirectoryOf | pkg/protoplugin/entrypoint/plugin.go:76 | the nested directory of a sub-invocation is the parent's components followed by the method's |
| Backend.MethodDirComponents | pkg/protoplugin/entrypoint/plugin.go:62-63 | the method's directory is `lower(service)/lower(method)` |
| Backend.NestedToRoot | pkg/protoplugin/entrypoint/plugin.go:62-79 | from the method's directory, the include path climbs back over the parent's nested directory: one `..` per component, or `.` |
| Entrypoint.Output | pkg/protoplugin/entrypoint/plugin.go:38-43 | never an error; one file, `main.go` when a service or method is named and `korpc.go` otherwise |
| Entrypoint.Do | pkg/protoplugin/entrypoint/plugin.go:38-43 | `Do` returns `Output`: method mode when a service or a method is named |
| Entrypoint.DoMethod | pkg/protoplugin/entrypoint/plugin.go:98-142 | the overwriting scan returns `MethodOutput` |
| Entrypoint.ScanFile | pkg/protoplugin/entrypoint/plugin.go:111-129 | one file's turn leaves the options of the scan so far |
| Entrypoint.ScanService | pkg/protoplugin/entrypoint/plugin.go:115-128 | one service's turn leaves the options of the scan so far |
| Entrypoint.ScannedStep | pkg/protoplugin/entrypoint/plugin.go:116-126 | a match overwrites the proto import path and the implementation; any other method leaves the options alone |
| Entrypoint.MethodMain | pkg/protoplugin/entrypoint/plugin.go:98-142 | the main file always has the import path from `Join(Base, MethodsDir, lower(service), lower(method))` and the named service; with no match the proto import path and implementation stay empty; otherwise they are those of the last match |
| Entrypoint.MainFields | pkg/protoplugin/entrypoint/plugin.go:104-132 | the main template is executed with the options' values, and `UnimplementedMethods` empty |
| Entrypoint.ScannedLast | pkg/protoplugin/entrypoint/plugin.go:111-129 | after a scan that found the method, the options are those of its last match |
| Entrypoint.ImplTemplate | pkg/protoplugin/entrypoint/plugin.go:153-163 | `impl` picks the unary, in-out, in or out template exactly for its combination of flags; only unary gets the body `return impl.Impl(ctx, req)` |
| Entrypoint.ImplValues | pkg/protoplugin/entrypoint/plugin.go:145-152 | `impl` passes the service and method names, the extracted request and response types and the `(s *server) ` receiver |
| Methods.Output | pkg/protoplugin/methods/plugin.go:35-40 | a success is one `korpc.go` without error; an error only in method mode |
| Methods.Do | pkg/protoplugin/methods/plugin.go:35-40 | `Do` returns `Output` |
| Methods.DoMethod | pkg/protoplugin/methods/plugin.go:96-146 | `doMethod` returns `MethodOutput` |
| Methods.OutputError | pkg/protoplugin/methods/plugin.go:102-105 | fails exactly in method mode with the method undeclared, and then with `Unable to find <Service>.<Method>` |
| Methods.OutputFound | pkg/protoplugin/methods/plugin.go:96-146 | with the method declared, the file is `package <lower(method)>` plus the scaffold command for its first match |
| Methods.ScaffoldArgs | pkg/protoplugin/methods/plugin.go:115-130 | the scaffold command writes into `.` and its `_opt` decodes to the scaffold parameter: found names, unchanged nested directory, base, gen, methods, domain and namespace as given |
| Methods.ScaffoldRoot | pkg/protoplugin/methods/plugin.go:115-130 | the scaffold command's include path is one `..` per component of the nested directory |
| Scaffold.Output | pkg/protoplugin/scaffold/plugin.go:36-67 | a success is one `main.go` without error; the only error is `Unable to find <Service>.<Method>` |
| Scaffold.Do | pkg/protoplugin/scaffold/plugin.go:36-67 | `Do` returns `Output` |
| Scaffold.OutputError | pkg/protoplugin/scaffold/plugin.go:37-40 | fails exactly when no generated file declares the method |
| Scaffold.OutputFound | pkg/protoplugin/scaffold/plugin.go:106-124 | with the method declared, the stub is that of its first match, a method of a service of a generated file |
| Scaffold.MainFields | pkg/protoplugin/scaffold/plugin.go:47-53 | the package is `lower(method)`, the proto import path `Join(Base, GenDir, "proto", Dir(file))`, and the body the stub |
| Scaffold.UnimplTemplates | pkg/protoplugin/scaffold/plugin.go:69-84 | `unimpl` picks the method and error templates of one shape exactly for its flags; the error text is `You need to implement <Service>.<Method>!!!` |
| Scaffold.UnimplValues | pkg/protoplugin/scaffold/plugin.go:86-96 | the stub is a receiverless `Impl` with the method's names and the extracted request and response types |
| Config.Output | pkg/protoplugin/config/plugin.go:41-46 | a success is one file without error, `korpc.go` in meta mode; an error only in method mode |
| Config.Do | pkg/protoplugin/config/plugin.go:41-46 | `Do` returns `Output` |
| Config.DoMeta | pkg/protoplugin/config/plugin.go:48-94 | `doMeta` returns `MetaOutput` |
| Config.MetaFile | pkg/protoplugin/config/plugin.go:59-84 | one file's turn of the loop appends the lines of its methods |
| Config.MetaService | pkg/protoplugin/config/plugin.go:63-83 | one service's turn of the loop appends the lines of its methods |
| Config.MetaMethod | pkg/protoplugin/config/plugin.go:64-82 | one method's turn appends its single protoc line |
| Config.DoMethod | pkg/protoplugin/config/plugin.go:98-129 | `doMethod` returns `MethodOutput` |
| Config.OutputError | pkg/protoplugin/config/plugin.go:99-102 | fails exactly in method mode with the method undeclared, and then with `Unable to find <Service>.<Method>` |
| Config.OutputFound | pkg/protoplugin/config/plugin.go:131-149 | with the method declared, the manifest is that of its first match |
| Config.ServiceFileName | pkg/protoplugin/config/plugin.go:117-128 | in method mode the one file is named after the service name of a matching method, plus `.yaml` |
| Config.MetaLineAt | pkg/protoplugin/config/plugin.go:56-84 | line 0 is `package config` and method `n` owns line `n+1`, its protoc command; there are no `mkdir` lines |
| Config.MetaArgs | pkg/protoplugin/config/plugin.go:65-78 | each command writes into `.`; its `_opt` decodes to the method's parameter with the unchanged nested directory and with domain and namespace empty |
| Config.MetaRoot | pkg/protoplugin/config/plugin.go:65-78 | the include path of each command is one `..` per component of the nested directory |
| Config.ManifestHeader | pkg/protoplugin/config/plugin.go:104-110 | the manifest is named by the service name, in `default`, with image `Join(Base, GenDir, "entrypoint", lower(svc), lower(method))`; both probes run `/ko-app/` |
| Config.ManifestOptions | pkg/protoplugin/config/plugin.go:112-115 | settings, environment and resources are those of the method's extension |
| Config.PlainManifest | pkg/protoplugin/config/plugin.go:112-115 | without the extension, the three settings are blank and there are no variables, limits or requests |
| ConfigTemplate.LinesLayout | pkg/protoplugin/config/template.go:30-60 | 8 metadata lines, 3 setting lines, 12 container lines, then the environment and the resources |
| ConfigTemplate.MetadataLines | pkg/protoplugin/config/template.go:30-37 | the metadata name and namespace are the options' |
| ConfigTemplate.ContainerLines | pkg/protoplugin/config/template.go:41-52 | the image is `GatewayPath`, and both probes run `/ko-app/<MethodLower> probe` |
| ConfigTemplate.ServiceAccountLine | pkg/protoplugin/config/template.go:38 | `serviceAccountName` is written exactly when the service account is not empty |
| ConfigTemplate.ConcurrencyLine | pkg/protoplugin/config/template.go:39 | `containerConcurrency` is written, in decimal, exactly when it is not 0 |
| ConfigTemplate.TimeoutLine | pkg/protoplugin/config/template.go:40 | `timeoutSeconds` is written, in decimal, exactly when it is not 0 |
| ConfigTemplate.TimeoutExample | pkg/protoplugin/config/template.go:40 | a timeout of 30 writes `timeoutSeconds: 30` |
| ConfigTemplate.OptionalBlank | pkg/protoplugin/config/template.go:38-40 | a setting leaves only its indentation exactly when it is off |
| ConfigTemplate.EnvEntries | pkg/protoplugin/config/template.go:52-54 | variable `n` owns a name line and a value line, in order |
| ConfigTemplate.EnvLinesIndex | pkg/protoplugin/config/template.go:52-54 | two lines per variable, in list order |
| ConfigTemplate.BodyLayout | pkg/protoplugin/config/template.go:52-59 | the resources follow the variables |
| ConfigTemplate.ResourceEntries | pkg/protoplugin/config/template.go:55-59 | `limits:` with one line per limit in key order, then `requests:` with one line per request in key order |
| ConfigTemplate.MapLinesIndex | pkg/protoplugin/config/template.go:56-59 | one `key: value` line per map entry, in sorted key order |
| ConfigTemplate.NoResources | pkg/protoplugin/config/template.go:55-59 | without resources there is no limit or request line |
| GatewayTemplate.HeaderLines | pkg/protoplugin/gateway/template.go:30-41 | the name and namespace are the options', and the only host is the domain |
| GatewayTemplate.RuleBlock | pkg/protoplugin/gateway/template.go:42-47 | a rule's block opens with a blank line, matches its path exactly, and rewrites the authority to `<service>.<namespace>.svc.cluster.local` |
| GatewayTemplate.RuleDestination | pkg/protoplugin/gateway/template.go:48-53 | every block routes to the same ingress gateway host on port 80 with weight 100 |
| GatewayTemplate.RulesIndex | pkg/protoplugin/gateway/template.go:42-54 | rule `n` owns lines `12n` to `12n+11` of the blocks |
| GatewayTemplate.LinesLayout | pkg/protoplugin/gateway/template.go:30-55 | the header, one block per rule in list order, then one blank line |
| GatewayTemplate.RuleAt | pkg/protoplugin/gateway/template.go:42-54 | rule `n` owns lines `12+12n` to `23+12n` of the manifest |
| Gateway.Output | pkg/protoplugin/gateway/plugin.go:64-74 | never an error; one file, `gateway.yaml` |
| Gateway.Do | pkg/protoplugin/gateway/plugin.go:36-75 | the accumulating scan returns `Output` |
| Gateway.DoFile | pkg/protoplugin/gateway/plugin.go:53-60 | one file's turn appends the rules of its methods |
| Gateway.DoService | pkg/protoplugin/gateway/plugin.go:54-59 | one service's turn appends one rule per method, in order |
| Gateway.RulesInOrder | pkg/protoplugin/gateway/plugin.go:48-61 | rule `n` is that of method `n` of the scan, with as many rules as methods |
| Gateway.RuleOfEveryMethod | pkg/protoplugin/gateway/plugin.go:53-59 | every method of every service of a generated file has its rule `/pkg.Service/Method` routed to its service name |
| Gateway.EveryRuleOfAMethod | pkg/protoplugin/gateway/plugin.go:55-58 | every rule is that of a method of a service of a generated file |
| Gateway.SkipFile | pkg/protoplugin/gateway/plugin.go:49-51 | a file outside `FileToGenerate` adds no rule |
| Gateway.ManifestHeader | pkg/protoplugin/gateway/plugin.go:43-47 | the manifest is `grpc-gateway` in the parameter's namespace for its domain, 13 lines plus 12 per method |
| Gateway.ManifestRoute | pkg/protoplugin/gateway/plugin.go:55-58 | method `n`'s block matches `/pkg.Service/Method` and rewrites to its service in the parameter's namespace |
| Protoplugin.Registry.constructor | pkg/protoplugin/run.go:36 | the registry starts empty |
| Protoplugin.Registry.Register | pkg/protoplugin/run.go:39-46 | registering a new name adds that entry and changes no other |
| Protoplugin.Registry.Get | pkg/protoplugin/run.go:48-52 | a name gives its plugin when it is registered and none otherwise |
| Protoplugin.RegisterBuiltin | cmd/korpc/main.go:30-36 | the five enabled `init` registrations leave exactly the five built-in entries |
| Protoplugin.BuiltinNames | cmd/korpc/main.go:30-36 | the names are `config`, `entrypoint`, `gateway`, `methods`, `scaffold`; the commented-out sample is unknown |
| Protoplugin.Dispatch | pkg/protoplugin/run.go:54-64 | `dispatch` computes `DispatchOutput` with the registry's map |
| Protoplugin.DispatchCases | pkg/protoplugin/run.go:54-64 | a decoding error is returned and no plugin runs; an unknown name is `Unrecognized plugin %q`; otherwise the named plugin's result on the decoded record and the unchanged request; success only then |
| Protoplugin.DispatchEncoded | pkg/protoplugin/run.go:55-63 | a parameter that encodes a record reaches the plugin named in it, with that same record |
| Protoplugin.UnrecognizedPlain | pkg/protoplugin/run.go:61 | for a plain name the message is `Unrecognized plugin "<name>"` |
| Protoplugin.EmptyNameUnrecognized | pkg/protoplugin/run.go:59-62 | a parameter without a name reaches no built-in backend: `Unrecognized plugin ""` |
| Protoplugin.Run | pkg/protoplugin/run.go:77-86 | `Run` writes `RunOutput`: the response, or an empty one with the error |
| Protoplugin.RunError | pkg/protoplugin/run.go:77-86 | a dispatch error becomes a response with that message and no file; a success is passed through |
| Protoplugin.RunErrorIff | pkg/protoplugin/run.go:77-86 | the response carries an error exactly when dispatch failed |

## Left out

- Reading the request from stdin and writing the response to stdout are left out. So is the protobuf wire codec of both messages. The request is an already-decoded datatype (pkg/protoplugin/run.go:66-76,87-92).
- The registry mutex is left out: the registry is a single-threaded object.
- Protoplugin.Registry.Register: a duplicate registration is fatal in Go. The model states that case as a precondition instead of modelling the abort.
- Protoplugin.Dispatch: dispatch calls no backend method. The interface call `plugin.Do` is the function `PluginOutput`, and each backend's `Do` method is proved equal to that function. A single method calling all five backends' methods is too expensive to verify.
- `RunProtoC`, `InstallProtoC`, the protoc release constants and the install directories are left out. They are process execution, HTTP, zip extraction and the filesystem. The five install paths the command line uses are the parameter `Install.Toolchain`.
- `pkg/install/ko.go`, `pkg/generate`, `pkg/deploy`, `pkg/delete` and the cobra wiring of `cmd/korpc/main.go` are not part of this model. `cmd/korpc/main.go` is cited only for which backends are registered.
- The sample backend is left out. `main` does not import it, so its name is unknown.
- `naming.Service` is not part of this model. It is the function `Env.serviceName`, about which nothing is assumed.
- `proto.GetExtension` is the optional value `MethodDesc.korpc`. A failed lookup leaves the zero options.
- The text of the Go templates in entrypoint/template.go and scaffold/template.go is opaque. A render is the template's name plus the values it is executed with. `execToString` is taken to succeed; its error paths are not modelled.
- The stream templates the backends select do not exist in the template files. Entrypoint selects `streamInOutMethod`, `streamInMethod` and `streamOutMethod`; scaffold selects `StreamInOut*`, `StreamIn*` and `StreamOut*`. The template files only define `streamMethod`/`StreamMethod` and `streamError`/`StreamError`. The model names the template the plugin code asks for, by its shape.
- `Stuff` declares no `Domain` or `Namespace` field, yet the backends read and write both. They are modelled as two more `omitempty` members, `domain` and `namespace`, placed after the seven declared ones.
- Config.ManifestHeader: `MethodLower` is never assigned by `doMethod`, so both probes run `/ko-app/`. The model keeps that behaviour as written.
- Entrypoint.DoMethod: the source has no not-found error. An undeclared method keeps empty import path and implementation, and the last of several matches wins. The model keeps both as written.
- `UnimplementedMethods` in the entrypoint template is never set. It is rendered as an empty list.
- Text.Lower: only ASCII letters are lower-cased. Go's Unicode case mapping of other letters is not modelled.
- Text.GoQuote: quotes, backslashes and ASCII control characters are escaped as `strconv.Quote` does (`\n`, `\t`, `\x7f`, …). Every character from U+0080 up counts as printable and is copied unchanged; Go's Unicode printability tables and its `\u` escapes for non-printable non-ASCII characters are not modelled.
- Parameter.Message: the error texts are close to Go's but not identical. For example, Go gives the byte offset of corrupt base64 and the exact JSON syntax error; the model gives neither.
- Parameter.FieldOf: JSON keys are matched exactly, then by Go's case folding for letters. The folding covers ASCII and the two special folds Go applies to `s` and `k`; wider Unicode folding is not modelled.
- Json.ParseValue: the parser has no nesting limit, while Go's decoder rejects very deep nesting.
- Json numbers are checked for syntax only. Their values are never read, because any number where a string belongs is a type error.
- Go strings are Dafny strings of characters; integers are unbounded. The `int32` settings of `korpc.Options` are printed as the signed decimals they hold.
- Backend, Config, Entrypoint, Gateway: each of Go's nested loops is one method per loop level (files, services, methods), each proved against the scan function. The loops' early `continue` and `return` are kept.
