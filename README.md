# grpc-dynamic-gateway: a verified model of the request-transcoding core

grpc-dynamic-gateway is an Express middleware. It reads proto files, with
an optional sidecar `.yaml` service document next to each one. For every rpc
that carries a `google.api.http` rule, it registers HTTP routes that forward
requests to a gRPC client. This project models the part of `index.js` that
does the transcoding. The model is a set of Dafny modules, and the
properties the code promises are proved about it:

- **PathTemplate**: `convertUrl`, which rewrites gRPC `{name}` placeholders
  into Express `:name` segments. It also models the shared global regular
  expression `/{(\w+)}/g`, as a class whose only state is `lastIndex`. Its
  `exec` is a loop over that state.
- **Params**: `getParamsList` and `convertParams`, which merge the query
  values and path captures into `req.body` in place (path capture over query
  value over body field, truthy values only). Also `putParamInObjectHierarchy`,
  which rebuilds the merged flat object as a tree keyed by dotted names.
  **ObjectTree** proves what that rebuilding guarantees.
- **PackageTable**: the `clients` table and `getPkg`. `getPkg` first tries the
  whole package name as a key, then walks the dotted parts, creating missing
  levels on demand.
- **Response**: `convertBody`, and the callback that turns an rpc error or
  answer into the HTTP response.
- **Routes** and **Gateway**: how routes are planned and registered.
  - Sidecar rule collection, and choosing between a sidecar rule and the
    inline option.
  - One route per supported verb, in the fixed verb order.
  - `lowerFirstChar` for the rpc method name.
  - The nested loops of `middleware` that fill the client table and the
    router.
  - What one request through a route does.

Supporting modules:

- **Props**: a JavaScript object as an ordered list of (key, value) pairs.
  Assigning a new key appends it, and assigning an existing key overwrites it
  in place.
- **Json**: the values that requests and answers carry, with JavaScript
  truthiness.
- **Dotted**: `split('.')` and its inverse.

Behaviour as the code has it. The model follows the code in each of these
points:

- Parameter names are not de-duplicated. A name that is both a query key and
  a placeholder is listed twice, which is harmless because the merge is
  idempotent per name.
- A dotted placeholder such as `{a.b}` is not a placeholder at all, because
  `\w` does not match `.`. It stays in the Express path literally.
- A response field that the answer lacks projects to `undefined`. The
  response is then a 200 with an empty body, not an error.
- `req.body` is written into and is not copied. When a truthy primitive sits
  where a dotted name needs an object, the rebuild assigns a property on a
  primitive. That is a `TypeError` under strict mode.
- A proto file without a `package` has the package `null`. Unless the
  client table already has a property `"null"`, `getPkg` throws (`pkg.split`
  on `null`), so building the middleware fails.
- A sidecar document is read for every proto file before any service is
  registered. A blank document, a `google.api.Service` document without
  `http.rules`, or a rule that is not an object makes that reading throw, so
  building the middleware fails before anything is registered.
- When the client for a request cannot be found, the error is caught and
  logged, and the request is never answered.
- When two routes share a verb and a path, Express uses the first one
  registered. The model keeps the routes in registration order and does not
  model matching.

## Model

| member | source | states |
|---|---|---|
| PathTemplate.WordRunEndSpec | index.js:16 | the greedy `\w+` run holds only word characters and ends at the first non-word character or the end of the text |
| PathTemplate.MatchAt | index.js:16 | a match found at an index starts with `{`, ends with `}` and spans at least three characters |
| PathTemplate.MatchAtSound | index.js:16 | a match found at an index is a brace-enclosed run of one or more word characters |
| PathTemplate.MatchAtComplete | index.js:16 | wherever the pattern `{(\w+)}` matches, the scan finds exactly that match |
| PathTemplate.PlaceholderText | index.js:16 | a match at the start of a text is `{`, a non-empty name of word characters, `}`, then the rest |
| PathTemplate.ConvertUrl | index.js:184-187 | `url.replace(paramRegex, ':$1')` on the template; ConvertIsExpressRendering and ConvertUrlReplacesPlaceholders prove what it yields |
| PathTemplate.Placeholders | index.js:16 | the names `{(\w+)}` matches in a template, leftmost first; ConvertIsExpressRendering proves them the placeholder names in order, ScanFromStart proves them what the `exec` loop finds |
| PathTemplate.ScanFrom | index.js:215 | the names repeated `exec` calls report from a given `lastIndex`; ScanFromSuffix proves them the placeholders of the text from there on |
| PathTemplate.ParseRoundTrip | index.js:184-187 | splitting a template into literal characters and placeholders and printing it back in `{name}` form gives the template |
| PathTemplate.ParseWordNames | index.js:16 | every placeholder the split finds has a non-empty name of word characters |
| PathTemplate.ConvertIsExpressRendering | index.js:184-187 | `convertUrl` prints the same pieces in `:name` form, and the scan lists exactly the placeholder names in order |
| PathTemplate.ConvertUrlReplacesPlaceholders | index.js:184-187 | every `{word}` becomes `:word` and nothing else changes |
| PathTemplate.NoParamsSameRendering | index.js:184-187 | a piece list without placeholders renders the same in both forms |
| PathTemplate.NoPlaceholdersUnchanged | index.js:184-187 | a template with no placeholder comes back unchanged |
| PathTemplate.DottedPlaceholderKept | index.js:16 | `/v1/{a.b}` has no placeholder and is not rewritten |
| PathTemplate.ConvertLiteralPrefix | index.js:184-187 | a leading stretch without `{` is copied unchanged |
| PathTemplate.ScanLiteralPrefix | index.js:215 | a leading stretch without `{` adds no name |
| PathTemplate.PlaceholderPrefix | index.js:16 | a leading `{name}` with a word-character name is a match ending right after its `}`, naming `name` |
| PathTemplate.ConvertPlaceholderPrefix | index.js:184-187 | a leading `{name}` becomes `:name`, and the rest is converted on its own |
| PathTemplate.ScanPlaceholderPrefix | index.js:215 | a leading `{name}` reports `name`, and the scan goes on after its `}` |
| PathTemplate.TestPlaceholder | test/index.spec.js:26-34 | the placeholders of the test templates are `{word}` with word-character names, and their Express forms are `:word` |
| PathTemplate.ConvertUrlSingleExample | test/index.spec.js:26-29 | `/v1/hi/{name}` becomes `/v1/hi/:name` |
| PathTemplate.PlaceholdersSingleExample | test/index.spec.js:50-59 | the names found in `/v1/hi/{name}` are just `name` |
| PathTemplate.ConvertUrlManyExample | test/index.spec.js:31-34 | `/{version}/hi/{name}/{cool}` becomes `/:version/hi/:name/:cool` |
| PathTemplate.PlaceholdersManyExample | test/index.spec.js:61-71 | the names found in `/{version}/hi/{name}/{cool}` are `version`, `name`, `cool`, in template order |
| PathTemplate.WordRunEndDrop | index.js:16 | the word run from a position is the same in any suffix that still holds that position |
| PathTemplate.MatchAtDrop | index.js:16 | whether the pattern matches at a position depends only on the text from that position on |
| PathTemplate.ScanFromSuffix | index.js:215 | repeated `exec` calls starting at `lastIndex` find the placeholders of the text from `lastIndex` on |
| PathTemplate.ScanFromStart | index.js:215 | repeated `exec` calls starting at 0 find the template's placeholders |
| PathTemplate.ScanSkips | index.js:215 | positions where no match starts add no name to the scan |
| PathTemplate.PlaceholderRegex.Exec | index.js:16 | `exec` returns the leftmost match at or after `lastIndex` and moves `lastIndex` past it, so the scan from the old `lastIndex` is that name followed by the scan from the new one; with no match it returns null and resets `lastIndex` to 0, and the scan from the old `lastIndex` is empty |
| PathTemplate.PlaceholderRegex.constructor | index.js:16 | the regular expression starts with `lastIndex` 0 |
| Params.GetParamsList | index.js:209-222 | the query keys (none without a query), then every placeholder name in template order with duplicates kept; `lastIndex` ends at 0; the zero-length-match guard never fires |
| Params.GetParamsListRepeats | index.js:209-222 | two calls in a row return the same list, the full one |
| Params.ParamsListSingleExample | test/index.spec.js:50-59 | with query `tester=Cool`, `/v1/hi/{name}` lists `tester` then `name` |
| Params.ParamsListManyExample | test/index.spec.js:61-71 | with query `tester=Cool`, `/{version}/hi/{name}/{cool}` lists `tester`, `version`, `name`, `cool` |
| Params.Request.constructor | index.js:144-146 | a request holds a body, an optional query and optional path captures |
| Params.Overriding | index.js:148-152 | `req.query && req.query[p]` (or the same of `req.params`) when it is truthy; MergePrecedence states what it decides |
| Params.MergeStep | index.js:148-153 | one pass of the first loop of `convertParams` on a flat object; MergeName is proved against it and MergeStepKeepsKeys states what it keeps |
| Params.Merge | index.js:147-154 | the first loop of `convertParams` over the candidate names in order; MergePrecedence and MergeKeepsKeys state its result, MergeInto is proved against it |
| Params.MergeName | index.js:148-153 | one pass writes a truthy query value to `req.body[p]`, then a truthy path capture over it |
| Params.MergeInto | index.js:146-154 | `req.body` becomes the merge over the candidate names, in place |
| Params.MergePrecedence | index.js:147-154 | for a candidate name, the merged value is the truthy path capture, else the truthy query value, else the body field; any other name keeps its body value |
| Params.MergeStepKeepsKeys | index.js:148-153 | one merge step keeps body keys in place and adds no duplicate key |
| Params.MergeKeepsKeys | index.js:146-154 | body fields keep their positions, new names are appended, and keys stay distinct |
| Params.Put | index.js:168-177 | when placing a value at a dotted path succeeds, the value is found at that path |
| Params.Child | index.js:171 | `targetObj[k] \|\| {}` where no truthy primitive sits: the object found at `k`, else a new empty one; PutHead states how Put uses it |
| Params.Insert | index.js:156-158 | the second loop of `convertParams`, putting every flat entry at its dotted path in order and stopping at the first `TypeError`; InsertPlaces and InsertUndotted state its result |
| Params.BuildTree | index.js:155-159 | the tree `convertParams` returns for a merged flat object, or the `TypeError`; BuildTreePlacesEveryKey and BuildTreeUndotted state its result, Rebuild is proved against it |
| Params.Rebuild | index.js:155-159 | the loop over the merged entries builds the tree entry by entry, stopping at the first `TypeError` |
| Params.ConvertParams | index.js:144-160 | `req.body` is merged in place and the returned tree is that merged body rebuilt; `lastIndex` ends at 0 |
| ObjectTree.PutHead | index.js:169-172 | placing along two or more names replaces the first name's entry by an object holding the inner placement, and leaves every other name as it was |
| ObjectTree.GetPathStep | index.js:171-172 | reading a path through an object reads the rest of the path inside it |
| ObjectTree.GetPathChild | index.js:171-172 | reading a path of two or more names reads the rest of it in the object the first name holds, or in an empty one |
| ObjectTree.GetPathSingle | index.js:175 | a one-name path reads that property |
| ObjectTree.PutKeepsDiverging | index.js:168-177 | placing a value leaves every path that is not a prefix of it, and that it is not a prefix of, unchanged |
| ObjectTree.PutPrefixesAreObjects | index.js:170-172 | after placing, every proper prefix of the path holds an object; PutHead and Child say that an object already there is the one reused |
| ObjectTree.PutOpenSucceeds | index.js:168-177 | placing succeeds when no step on the way holds a truthy primitive |
| ObjectTree.PutKeepsOpen | index.js:168-177 | placing at one path keeps every diverging path placeable |
| ObjectTree.PutKeepsPlaced | index.js:156-158 | placing one entry keeps every entry already placed at a diverging path |
| ObjectTree.PutKeepsAllOpen | index.js:156-158 | placing one entry keeps every entry still to come, at a diverging path, placeable |
| ObjectTree.InsertPlaces | index.js:156-158 | inserting entries with pairwise diverging paths succeeds, and each entry is found at its path |
| ObjectTree.BuildTreePlacesEveryKey | index.js:155-159 | when no merged name's dotted path is a prefix of another's, the rebuild succeeds and every value is read back at its dotted path |
| ObjectTree.InsertUndotted | index.js:156-158 | names without dots are appended as they are |
| ObjectTree.BuildTreeUndotted | index.js:155-159 | a flat object with distinct names and no dots rebuilds to itself |
| ObjectTree.ConvertedParamAtPath | index.js:144-160 | when the body's keys are distinct and no merged name's dotted path is a prefix of another's, under each merged name's dotted path the tree holds the path capture, else the query value, else the body field |
| ObjectTree.CaptureAppended | index.js:151-152 | a truthy path capture under a name the body lacks is appended after the body fields |
| ObjectTree.AppendedUndotted | index.js:155-159 | appending a fresh undotted name to an undotted body still rebuilds to itself |
| ObjectTree.CaptureRebuilt | index.js:144-160 | a truthy capture under a fresh undotted name is appended to an undotted body, and the result rebuilds unchanged |
| ObjectTree.TestBodyNames | test/index.spec.js:8-22 | the test body has the names `v1` and `v2`, distinct, undotted, and neither is `name` |
| ObjectTree.ConvertParamsMerge | test/index.spec.js:8-22 | body `{v1: true, v2: false}` with capture `name: 'Cool'` merges to `{v1: true, v2: false, name: 'Cool'}`, which rebuilds to itself |
| ObjectTree.ConvertParamsExample | test/index.spec.js:8-22 | the same, with the candidate names found in the template `/v1/hi/{name}` |
| ObjectTree.PutNestedInEmpty | index.js:169-172 | placing at `a.k` in an empty tree creates an object `a` holding `k` |
| ObjectTree.PutNestedBeside | index.js:171 | placing at `a.ky` beside `a.kx` reuses the object `a` and adds `ky` after `kx` |
| ObjectTree.SiblingsNest | index.js:171 | `a.x` and `a.y` end up side by side under one object `a` |
| ObjectTree.LeafThenNestedFails | index.js:171 | a truthy primitive at `a` followed by `a.b` makes the rebuild throw |
| PackageTable.SetAt | index.js:131 | assigning a property of the object at a path changes exactly that object's property |
| PackageTable.SetAtKeeps | index.js:131 | assigning a property at a path leaves every path that is neither under the assigned property nor a prefix of the object's path reading as before |
| PackageTable.SetAtBelow | index.js:131 | under the assigned property, the table reads the assigned object |
| PackageTable.SetAtKeepsPrefix | index.js:131 | every object on the way to the assigned one still exists and keeps its client |
| PackageTable.NodeAtAppend | index.js:129-134 | walking a path and then another is walking their concatenation |
| PackageTable.Ensure | index.js:127-134 | after the creating walk the whole path exists, and the root's client is kept |
| PackageTable.ResolveSpec | index.js:118-136 | what `getPkg` returns is found at its path afterwards; the path is the whole name or its split; with `create` it throws exactly for a missing package with no `null` key |
| PackageTable.AfterResolve | index.js:118-136 | the table after `getPkg`: only a creating walk past a missing whole-name key changes it; ResolveSpec, FlatKeyHit and ResolveCreateSettles state its properties |
| PackageTable.FlatKeyHit | index.js:119-125 | a whole name that is already a key is returned, and nothing is created |
| PackageTable.MissingPackageThrows | index.js:119-127 | a missing package makes `pkg.split` throw and changes nothing |
| PackageTable.NodeAtSnoc | index.js:133 | one more step of the walk reads one more property |
| PackageTable.NodeAtMissingExtends | index.js:129-134 | once a step is missing, every longer walk fails too |
| PackageTable.EnsureSnoc | index.js:129-134 | the creating walk is its prefix walk followed by one `obj[name] = obj[name] \|\| {}` step |
| PackageTable.EnsureExisting | index.js:131 | creating along a path that already exists changes nothing |
| PackageTable.EnsureIdempotent | index.js:127-134 | creating twice is creating once |
| PackageTable.EnsureKeeps | index.js:131 | creating never loses an existing object or replaces a client |
| PackageTable.ResolveCreateSettles | index.js:118-136 | after `getPkg(c, pkg, true)`, calling again with or without `create` returns the same container and changes nothing more |
| PackageTable.CreatedFlatKey | index.js:119-127 | after a creating walk, the whole name is a key only when it has no dot |
| PackageTable.LookupFound | index.js:118-136 | without `create`, a package present at its path is found there |
| PackageTable.RegisterThenFind | index.js:77 | after a service's client is stored under its package, a request for that package and service finds exactly that client |
| PackageTable.RegisterKeepsSiblings | index.js:77 | storing one service's client keeps the clients of the other services of that package |
| PackageTable.RegisterKeepsClients | index.js:77 | storing a service's client keeps every existing object outside that service's property, with its client |
| PackageTable.Register | index.js:77 | `getPkg(clients, pkg, true)[svc] = client`, failing when `getPkg` throws; RegisterThenFind, RegisterKeepsSiblings and RegisterKeepsClients state its effect |
| PackageTable.ClientFor | index.js:94 | `getPkg(clients, pkg, false)[svc]` as a request finds it, when it is a client; RegisterThenFind states what it finds |
| PackageTable.Directory.constructor | index.js:30 | the client table starts empty |
| PackageTable.Directory.CreateWalk | index.js:127-134 | the creating loop ends with the table the creating walk describes |
| PackageTable.Directory.LookupWalk | index.js:127-135 | the reading loop finds the object exactly when the whole path exists, returns `undefined` exactly when only the last step is missing, and otherwise throws |
| PackageTable.Directory.GetPkg | index.js:118-136 | `getPkg` returns the resolution and leaves the table as the walk describes |
| PackageTable.Directory.AddClient | index.js:77 | the client is stored under `clients[pkg...][svc]`; it fails exactly when `getPkg` throws |
| PackageTable.Directory.ClientLookup | index.js:94 | a request finds the client stored for its package and service, and changes nothing |
| Response.ConvertBody | index.js:195-202 | with no body field or `*` the whole answer is returned; it throws exactly when a field is asked of `null` |
| Response.ConvertBodyField | index.js:200 | a field selects the named property, and is `undefined` exactly when the answer lacks it |
| Response.ConvertBodyAfterSet | index.js:200 | projecting on a field gives back what was stored under it |
| Response.ConvertBodyExamples | test/index.spec.js:38-46 | `{cool: true}` with `*` is itself; with `cool` it is `true` |
| Response.Respond | index.js:97-102 | the status is 500 exactly for an rpc error; an answer is sent with status 200 as `convertBody` projects it, whole or one field; the callback throws exactly when projecting the answer throws |
| Response.ErrorReplyFields | index.js:100 | an error reply's body is `{code, message}` taken from the error |
| Response.AnswerSentWhole | index.js:102 | an answer with no body field is sent whole with status 200 |
| Response.AnswerSentField | index.js:102 | an object answer with a body field is sent with status 200 as that field's value |
| Routes.LowerFirst | index.js:18 | the name keeps its length and every character after the first; an upper-case first letter becomes its lower-case letter (32 code points on), any other first character is kept |
| Routes.LowerFirstIdempotent | index.js:18 | lowering twice is lowering once |
| Routes.LowerFirstKeepsLower | index.js:18 | a name that already starts in lower case is unchanged |
| Routes.LowerFirstExample | index.js:94 | `SayHello` is called as `sayHello` |
| Routes.LastRuleFinds | index.js:55-58 | a rule with a selector is found under that selector |
| Routes.LastRuleMisses | index.js:55-58 | a name no rule selects finds nothing |
| Routes.Selector | index.js:56-57 | a rule's `selector` when it is a string; LastRuleFinds states how rules are stored under it |
| Routes.LastRuleIsLast | index.js:55-58 | the rule found under a name is the last rule whose selector is that name |
| Routes.LastRule | index.js:55-58 | the rule stored under a name after the loop: the last one with that selector; LastRuleIsLast and LastRuleMisses state it, SidecarRules is proved against it |
| Routes.RuleObjects | index.js:55-56 | each rule of the list read as its properties, in order; SidecarRules states what is stored from them |
| Routes.SidecarRules | index.js:49-67 | reading throws exactly for a blank document, a `google.api.Service` document without `http.rules`, or a rule that is not an object; otherwise no rules without a document or for another type, and for a service document each name maps to the last rule with that selector |
| Routes.ChooseRule | index.js:80 | a sidecar rule under the full name beats the inline option, which is used otherwise; the one rule choice both MethodRoutes and AddMethodRoutes use, with SidecarRuleWins, InlineOptionUsed and NoRuleNoRoutes as its consequences for the routes |
| Routes.BodyField | index.js:102 | `httpRule.body` when it is a string, else absent; AnswerSentField and AnswerSentWhole state how the answer is shaped by it |
| Routes.MakeRoute | index.js:85 | the route `router[verb](convertUrl(template), ...)` registers, calling the rpc's lower-camel-case name; RoutesForShape states it |
| Routes.Enabled | index.js:82-83 | the verbs with a truthy template, in verb order; EnabledIff states it |
| Routes.RoutesFor | index.js:82-85 | the routes of one rpc, or the throw; RoutesForThrows and RoutesForShape state its result, AddVerbRoutes is proved against it |
| Routes.RoutesForThrows | index.js:82-85 | registration throws exactly when some verb's truthy template is not a string |
| Routes.RoutesForShape | index.js:82-85 | otherwise there is one route per verb with a truthy template, in verb order, at the template's Express form, calling the rpc's lower-camel-case name |
| Routes.EnabledIff | index.js:82-83 | a verb gets a route exactly when it is supported and its template is truthy |
| Gateway.NoRuleNoRoutes | index.js:80-81 | an rpc with neither a sidecar rule nor an inline option gets no route |
| Gateway.InlineOptionUsed | index.js:80-85 | without a sidecar rule for the full name, a truthy inline `google.api.http` option decides the routes |
| Gateway.SidecarRuleWins | index.js:80 | with a sidecar rule for the full name, the routes come from it |
| Gateway.FullName | index.js:79 | `pkg + '.' + svc + '.' + m.name`, a missing package printing as `null`; SidecarRuleWins and NoRuleNoRoutes use it as the sidecar key |
| Gateway.MethodRoutes | index.js:79-85 | one rpc's routes from the chosen rule; NoRuleNoRoutes, SidecarRuleWins, InlineOptionUsed and MethodRoutesWellFormed state them |
| Gateway.MethodsFold | index.js:78-112 | the routes of a service's rpcs in order; MethodsFoldWellFormed states them |
| Gateway.ServicesFold | index.js:75-113 | a file's services registered in order; ServicesFoldWellFormed states the result, AddFile is proved against it |
| Gateway.FilesFold | index.js:69-114 | every file registered in order; FilesFoldWellFormed states the result |
| Gateway.BuildSpec | index.js:28-116 | the middleware, or the throw: a throwing sidecar stops it first, then the files are registered; BuildRoutesWellFormed states it, Build is proved against it |
| Gateway.MethodRoutesWellFormed | index.js:81-85 | every route of one rpc uses a supported verb at the Express form of its template |
| Gateway.MethodsFoldWellFormed | index.js:78-112 | the routes of a service's rpcs keep that property |
| Gateway.ServicesFoldWellFormed | index.js:75-113 | the routes of a file's services keep that property |
| Gateway.FilesFoldWellFormed | index.js:69-114 | the routes of all files keep that property |
| Gateway.BuildRoutesWellFormed | index.js:69-115 | every route of a built middleware uses a supported verb at the Express form of its template |
| Gateway.VerbStep | index.js:82-85 | one pass of the verb loop: a truthy non-string template throws, a string one adds its route before the rest, and a falsy one adds nothing |
| Gateway.Router.constructor | index.js:29 | the router starts without routes |
| Gateway.Router.Add | index.js:85 | registering appends the route |
| Gateway.AddVerbRoutes | index.js:82-85 | the verb loop registers exactly the planned routes, or reports the throw |
| Gateway.AddMethodRoutes | index.js:79-85 | one rpc's rule is chosen, and its routes are registered |
| Gateway.AddService | index.js:76-112 | a service's client is stored, then its rpcs' routes are registered in order |
| Gateway.AddFile | index.js:72-113 | a file's services are registered in order |
| Gateway.Build | index.js:28-116 | sidecar rules are read for every file, and one that throws stops the build before anything is registered; then every file is registered; the result is the planned table and routes, or a throw |
| Gateway.HandleRequest | index.js:85-108 | the handler merges and rebuilds the parameters, finds the client, calls the rpc and answers as the callback decides |
| Gateway.TreeFor | index.js:86 | the parameter tree a request through a route builds; CallCarriesParams states what it holds |
| Gateway.CallSpec | index.js:86-94 | the rpc call a request makes, when the tree is built and the client found; CallIffReached and CallCarriesParams state it |
| Gateway.HandleSpec | index.js:85-108 | how a request ends; CallIffReached states it, HandleRequest is proved against it |
| Gateway.CallIffReached | index.js:93-103 | the rpc is called exactly when the request gets an answer or its callback throws; an answer has status 500 exactly for an rpc error |
| Gateway.CallCarriesParams | index.js:86-94 | when the body's keys are distinct and no merged name's dotted path is a prefix of another's, under each merged name's dotted path the rpc receives the path capture, else the query value, else the body field |
| Props.Get | index.js:148-153 | a property is found exactly when its key is present |
| Props.Set | index.js:149 | after assignment the key holds the value and every other key reads as before |
| Props.SetKeepsUniqueKeys | index.js:149 | assignment never duplicates a key |
| Props.SetKeys | index.js:149 | assigning an existing key keeps the key list, and a new key is appended to it |
| Props.SetAbsentAppends | index.js:149 | assigning a missing key appends it at the end |
| Props.SetExtendsKeys | index.js:149 | assignment never moves an existing key |
| Props.SetExisting | index.js:131 | re-assigning a present value changes nothing |
| Props.SetTwice | index.js:131 | the second of two assignments to a key is the one that stays |
| Props.GetAt | index.js:156-157 | in an object with distinct keys, each entry is what its key reads |
| Props.Keys | index.js:156 | `Object.keys` lists the keys in order |
| Json.Truthy | index.js:148 | JavaScript truthiness: `null`, `false`, `0` and `""` are falsy, every object is truthy; MergePrecedence and EnabledIff rely on it |
| Json.GetPath | index.js:171-175 | reading `t[p0]...[pn]` through objects; GetPathStep, GetPathChild and GetPathSingle state it, Put's contract uses it |
| Dotted.Split | index.js:157 | `split('.')` returns at least one part, and no part contains a dot |
| Dotted.JoinSplit | index.js:157 | joining the parts gives back the name |
| Dotted.SplitInjective | index.js:157 | different names split differently |
| Dotted.SplitUndotted | index.js:157 | a name without dots is its own single part |
| Dotted.SplitPrefix | index.js:157 | a dot-free prefix only lengthens the first part |
| Dotted.SplitJoin | index.js:157 | splitting a join of dot-free parts gives back the parts |

## Left out

- Loading and parsing proto files and YAML documents, and checking whether
  the sidecar file exists. This is file I/O and foreign parsers. Their
  results are given as `ProtoFile` and `ServiceDoc` values.
- Normalising the include path. This is filesystem plumbing and is not part
  of the transcoding.
- Constructing gRPC clients, and looking up service constructors in the
  loaded package definitions. A client is known only by its `Handle`.
- The asynchronous rpc call. The result it hands the callback is a
  parameter of `HandleRequest`.
- `convertHeaders`. It wraps `grpc.Metadata`, whose behaviour is not part of
  this model.
- Debug logging, colouring, and the choice of client IP.
- Express route matching. Routes are kept in registration order.
- Sending the response. The outcome is a value.
- JavaScript number values other than integers, and arrays.
- The prototype chain is not modelled. Properties such as `constructor` or
  `__proto__`, `in` seeing inherited keys, and string primitives' own
  properties such as `length` are all absent.
- `Object.keys` puts integer-like keys first. The model lists keys in
  insertion order.
- Params.Put works on values. A nested object reached through `req.body`
  (for example a body field `a` holding an object, then `a.b` merged) is
  shared with the body in the source and copied here. Only the returned tree
  is modelled.
- ObjectTree.BuildTreePlacesEveryKey requires that no merged name's dotted
  path is a prefix of another's. When one is (`a` and `a.b`), a later name
  overwrites an earlier one's subtree, or the rebuild throws (as
  LeafThenNestedFails shows). Those outcomes are not characterised beyond
  that lemma.
- ObjectTree.ConvertedParamAtPath carries the same condition, and also
  needs the body's keys to be distinct. With a body `{user: {id: 1}}` and the
  query `user.name=x`, the tree's object at `user` gains `name`. So it is not
  the body field that the precedence rule picks for `user`, and the lemma
  says nothing about it.
- Gateway.CallCarriesParams carries the same two conditions, for the same
  reason: it is ObjectTree.ConvertedParamAtPath for the tree the rpc
  receives.
- Routes.LowerFirst lowers ASCII letters only. `toLowerCase` also maps other
  Unicode upper-case letters.
- Routes.SidecarRules: a rule whose `selector` is not a string is ignored
  here. JavaScript would store it under the selector's string form.
- Routes.SidecarRules: `http.rules` is a list or missing here. A value of
  another kind is not modelled: a string would be iterated character by
  character (`'selector' in` a character throws, an empty string gives no
  rules), and any other non-iterable value throws.
- Routes.SidecarRules: the document's `type` is a string here, compared
  exactly. The source compares it with `==`, which would also accept a
  value whose string form is `google.api.Service`.
- Routes.BodyField: a rule's `body` that is not a string is treated as
  absent. JavaScript would use its string form as a property name.
- Response.ConvertBody: a primitive answer has no properties here.
- Params.Request: `req.body` is always an object here. Without a body parser
  `req.body` is `undefined`, and `convertParams` throws.
- A rule whose verb template is not a string makes `convertUrl` throw while
  the middleware is built. Registration stops there, and the routes
  registered before it are not described by `Gateway.Build`.
