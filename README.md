# Route autoloader, modelled in Dafny

This project models the autoload routine of a file-system route autoloader
for web routers (`src/index.ts`). The routine takes an application object
and an options record. It then:

1. normalises the routes directory (backslashes become slashes);
2. fails if that directory does not exist, then fails if it is not a directory;
3. scans the directory with a glob pattern and normalises each name (a final
   `/.ts$/` match is removed, backslashes become slashes);
4. fails on an empty scan unless `skipNoRoutes` is set;
5. walks the names in the order `sortRoutesByParams` gives them. For each name
   it loads the route module and looks at its default export:
   - a falsy export is fatal unless `skipImportErrors` is set;
   - a function is registered as `app[method](prefix + "/" + transformToRoute(file), handler)`;
   - anything else, including a falsy export whose error was skipped, is logged
     as a warning and not registered.

The HTTP method is the text inside the first parenthesised group of the name.
Without such a group it is `defaultMethod`.

Files:

- `wrappers.dfy`: `Option`.
- `paths.dfy` (module `Paths`): the string computations. This covers slash
  replacement, the `.ts` strip, the method regex `/\/?\((.*?)\)/` with
  JavaScript's lazy `.*?` (it does not cross a line terminator), the route
  string and the module reference.
- `router.dfy` (module `Router`): the application object as a class. It has the
  set of property names that are registration functions and a route table that
  `Register` extends in place.
- `autoload.dfy` (module `Autoload`): the options and their defaults, the
  collaborators (`Env`), the per-file step, the loop function `Process`, the whole
  routine `Run`, and the imperative methods `AutoloadRoutes` and `RegisterRoutes`.
  Both methods are proved to change the route table exactly as `Run` and
  `Process` say.
- `properties.dfy` (module `AutoloadProperties`): what the loop and the routine
  guarantee.

The collaborators are inputs, bundled in `Env`:

- `fs.existsSync` and `fs.statSync(..).isDirectory()` become predicates on paths.
- The glob scan (Node or Bun alike) becomes a function of pattern and directory.
- The module loader becomes a map from module reference to a default-export
  kind: `Falsy`, `Function(handler)` or `OtherTruthy`. A reference missing from
  the map is a load that rejects.
- `transformToRoute` and `sortRoutesByParams` from `src/utils` become functions.
  `src/utils` is not part of this model, so every property is stated relative
  to what these two return.

In the model the HTTP method is called `verb`, because `method` is a Dafny keyword.

A falsy default export with `skipImportErrors` set is not skipped silently: the
code reaches the `console.warn` branch and logs a warning
(`src/index.ts:98-109`). `NonFunctionExportWarns` states this.

The default routes directory is `./routes`, the value of `DEFAULT_ROUTES_DIR`
(`src/index.ts:6`) that the destructuring default uses (`src/index.ts:66`).
The option's own JSDoc says `@default '/routes'` (`src/index.ts:38`). The model
follows the code.

## Model

| member | source | states |
|---|---|---|
| `Paths.ReplaceBackslashes` | src/index.ts:72 | keeps the length and every character except `\`, which becomes `/`; the result contains no backslash |
| `Paths.HasTsSuffix` | src/index.ts:84 | the condition under which `/.ts$/` matches: at least three characters, the third from last not a line terminator, the last two `t` and `s`. `StripTsSuffix` and `NormalizeFile` state what follows from it |
| `Paths.StripTsSuffix` | src/index.ts:84 | the result is a prefix of the name. It is exactly three characters shorter when `HasTsSuffix` holds and the whole name otherwise |
| `Paths.NormalizeFile` | src/index.ts:84 | the normalised name has no backslash. It is three characters shorter exactly when the name ends in a non-line-terminator character followed by "ts" (the unescaped `.`), otherwise the same length. Each kept character is the original with `\` turned into `/` |
| `Paths.NormalizeFileCommutes` | src/index.ts:84 | stripping the suffix and then replacing backslashes is the same as doing them in the other order |
| `Paths.CloseFrom` | src/index.ts:103 | the lazy scan from index `j` finds a `)` exactly when one can be reached over plain characters. It returns that `)` and reports none when no such `)` exists |
| `Paths.GroupFrom` | src/index.ts:103 | returns the leftmost `(` at or after `i` whose lazy scan reaches a `)`, with that `)`. It reports none when no group starts at or after `i` |
| `Paths.MethodOf` | src/index.ts:103-104 | the text of the leftmost group `GroupFrom` finds, otherwise `defaultMethod`. `MethodOfDefault`, `MethodOfGroup`, `MethodOfFirstParen` and `MethodOfNoParens` state what it yields |
| `Paths.MethodOfDefault` | src/index.ts:103-104 | a name with no parenthesised group gets `defaultMethod` |
| `Paths.MethodOfGroup` | src/index.ts:103-104 | with a leftmost group from `a` to `b`, the method is exactly the (possibly empty) text between them |
| `Paths.MethodOfFirstParen` | src/index.ts:103-104 | for a name without line terminators, the method is the text between the first `(` and the first `)` after it |
| `Paths.MethodOfNoParens` | src/index.ts:103-104 | a name where no `(` is followed later by a `)` gets `defaultMethod` |
| `Paths.RouteOf` | src/index.ts:105 | the route is the prefix, then `/`, then the transformed name, and nothing else |
| `Paths.ModulePath` | src/index.ts:92 | the path `../<entryDir>/<file>` used in the messages and for the dev server. with a dev server it is the module reference itself, so `ModuleRefInjective` states that distinct files give distinct paths |
| `Paths.ModuleRef` | src/index.ts:93-96 | the reference handed to the loader: the path itself with a dev server, the path plus `.ts` for `import`. `ModuleRefInjective` states that it tells files apart |
| `Paths.ModuleRefInjective` | src/index.ts:92-96 | for a fixed directory and loader, distinct files give distinct module references (with or without the `.ts` added for `import`) |
| `Router.App.Register` | src/index.ts:106 | succeeds exactly when the application has a registration function for the verb. On success it appends one registration; otherwise the route table is unchanged |
| `Autoload.Resolve` | src/index.ts:63-71 | for every options record, each option that is given is kept. Each undefined one takes its default: the default glob, an empty prefix, `./routes`, `get`, and both skips off. The dev-server flag is whether a dev server is given |
| `Autoload.NormalizeAll` | src/index.ts:81-84 | one normalised name per scanned name, in the same order, none with a backslash |
| `Autoload.ExportOf` | src/index.ts:93-96 | the default export the loader yields for the file's module reference, or none when the load rejects. `FileRegisters` and `FileAborts` state how the step uses it |
| `Autoload.FileStep` | src/index.ts:92-109 | one iteration of the loop: register, warn or throw. `FileRegisters`, `FileAborts`, `FalsyExportAborts` and `NonFunctionExportWarns` state when each happens |
| `Autoload.Process` | src/index.ts:90-110 | the loop as a left fold over the sorted names that stops at the first error. `ProcessNext`, `ProcessKeepsEarlier`, `ProcessCounts`, `ProcessAbortIsFinal`, `OriginOf`, `AbortStopsAtFile` and `SuccessfulRunHandlesEveryFile` state its properties |
| `Autoload.Run` | src/index.ts:72-112 | the whole routine on resolved options: the two directory checks, the scan, the empty-scan check, then the loop. `DirectoryChecksComeFirst`, `EmptyScan` and `RunNeedsValidation` state its properties |
| `Autoload.ProcessAbortIsFinal` | src/index.ts:90-110 | after a file has thrown, later files change nothing |
| `Autoload.AutoloadRoutes` | src/index.ts:63-113 | for any options record, the application's route table becomes the old table plus exactly the registrations of `Run` on `Resolve(options)`. The warnings and the error returned are those of that run |
| `Autoload.RegisterRoutes` | src/index.ts:90-110 | the loop appends exactly the registrations of `Process` over the sorted names and returns its warnings and error |
| `AutoloadProperties.ProcessNext` | src/index.ts:90-110 | handling one more file is one more step on the outcome so far |
| `AutoloadProperties.ProcessKeepsEarlier` | src/index.ts:90-110 | the registrations and warnings of a prefix of the files are a prefix of those of the whole run. A run without error has a prefix without error |
| `AutoloadProperties.ProcessCounts` | src/index.ts:90-110 | each file adds at most one registration or one warning. In a run without error every file adds exactly one |
| `AutoloadProperties.RegistrationAtSlot` | src/index.ts:102-106 | a file reached without error whose step registers is registered at its slot, the number of registrations made before it |
| `AutoloadProperties.RegistrationsInFileOrder` | src/index.ts:90-106 | an earlier registering file gets a strictly smaller slot than any later file, so registrations follow the sorter's order |
| `AutoloadProperties.OriginOf` | src/index.ts:90-106 | every registration, given by its index, comes from a file of the list that was reached without error, whose slot it occupies, and whose step registers exactly it |
| `AutoloadProperties.FileRegisters` | src/index.ts:98-106 | a file is registered as `r` if and only if its default export is the function `r.handler`, `r.verb` is its method and a registration function of the application, and `r.route` is its route |
| `AutoloadProperties.RegisteredRoutes` | src/index.ts:103-106 | every registered route begins with the prefix and `/` and is the route of some file. It is registered under that file's method with that file's default export |
| `AutoloadProperties.AbortStopsAtFile` | src/index.ts:90-110 | a run that throws stops at one file. The files before it ran without error, and the outcome is theirs plus the error that file threw |
| `AutoloadProperties.FileAborts` | src/index.ts:93-106 | a file throws if and only if its module does not load, or its export is falsy and import errors are not skipped, or its export is a function under a method the application lacks |
| `AutoloadProperties.FalsyExportAborts` | src/index.ts:98-100 | a falsy default export without `skipImportErrors` ends the run with `MissingDefaultExport`. Earlier registrations and warnings remain |
| `AutoloadProperties.NonFunctionExportWarns` | src/index.ts:98-109 | a truthy non-function export, or a falsy one with `skipImportErrors`, adds one warning and no registration, and the run goes on |
| `AutoloadProperties.SkippedImportErrorsDoNotThrow` | src/index.ts:98-100 | with `skipImportErrors`, no run throws `MissingDefaultExport` |
| `AutoloadProperties.SuccessfulRunHandlesEveryFile` | src/index.ts:90-110 | in a run without error every module loads. Each function export is registered at its slot with its method, route and handler. Every other export leaves the slot count unchanged and adds its one warning |
| `AutoloadProperties.DirectoryChecksComeFirst` | src/index.ts:72-79 | a missing directory fails with `DirectoryNotFound` whatever the directory test says. An existing non-directory fails with `NotADirectory`. Neither outcome depends on the scan, the modules or the sorter, and neither has registrations or warnings |
| `AutoloadProperties.EmptyScan` | src/index.ts:86-88 | an empty scan without `skipNoRoutes` fails with `NoRoutesFound`. With it, and a sorter that keeps the empty list empty, nothing is registered, warned or thrown |
| `AutoloadProperties.RunNeedsValidation` | src/index.ts:72-88 | a run that succeeds, registers or warns had an existing routes directory that is a directory, and a non-empty scan or `skipNoRoutes` |

## Left out

- Paths.NormalizeFile: strings are sequences of code points, not of UTF-16 code units as in JavaScript. `/.ts$/` has no `u` flag, so for a name such as `😀ts` it matches the low surrogate and leaves a lone high surrogate; the model removes the whole character. Names holding lone surrogates cannot be written in the model.
- File system and glob: `fs.existsSync`, `fs.statSync`, `fs.globSync`, Bun's `Glob.scanSync` and the meaning of glob patterns. They are inputs of `Env`; the Bun-versus-Node choice does not appear.
- Module loading: dynamic `import` and `viteDevServer.ssrLoadModule`, with their side effects, caching, hot reload and the `fixStacktrace` flag. The model keeps only which module reference each of them is given and whether a dev server is present.
- Asynchrony: each `await` is treated as a plain sequential step. `start.ts:12-21` does not await the routine, so `app.use(logger())` runs while the routine waits at its first `await` (`src/index.ts:93`). `AutoloadRoutes` states the route table only for the case where nothing else changes the application during those waits.
- Message texts: errors and warnings are tags carrying the path or name their message mentions. The message that names the `skipFailGlob` option is not modelled.
- `src/utils` (`transformToRoute`, `sortRoutesByParams`) is not part of this model. It is an input, and no property of it is assumed. `transformToRoute`, `sortRoutesByParams`, the glob scan and `fs.statSync` are taken to return normally.
- The router: only whether `app[verb]` is a registration function and the order of registrations. A non-function property yields a JavaScript `TypeError`, modelled as `MethodNotCallable`. Hono's own route table, matching and the `constructor`/prototype properties of a real object are left out.
- Handlers are numbers standing for the exported function values. The returned value (the same application object) is the `app` argument itself.
- `EmptyScan`: "returns the application unchanged" is proved only for a sorter that maps the empty list to the empty list, because the sorter's code is not part of this model.
- `start.ts` (server start-up and logging) and `test/index.test.ts` (tests of `src/utils`) are not modelled.
