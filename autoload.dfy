/**
 * The autoload routine: validate the routes directory, scan it, normalise
 * the names, sort them, then load each route module in turn and register its
 * default export, warn about it, or stop with an error.
 *
 * The file system, the glob scanner, the module loader and the two helpers
 * `transformToRoute` and `sortRoutesByParams` are collaborators whose code
 * is not part of this model; they are the fields of `Env`.
 */
module Autoload {
  import opened Wrappers
  import opened Paths
  import opened Router

  const DefaultPattern := "**/*.{ts,tsx,mjs,js,jsx,cjs}"
  /** The code's value; the option's own documentation gives '/routes'. */
  const DefaultRoutesDir := "./routes"
  const DefaultMethod := "get"

  /** The options object as the caller passes it; `None` is a property left undefined. */
  datatype UserOptions = UserOptions(
    pattern: Option<string>,
    prefix: Option<string>,
    routesDir: Option<string>,
    defaultMethod: Option<string>,
    viteDevServer: bool,
    skipNoRoutes: Option<bool>,
    skipImportErrors: Option<bool>)

  /** The options after the destructuring defaults have been applied. */
  datatype Options = Options(
    pattern: string,
    prefix: string,
    routesDir: string,
    defaultMethod: string,
    devServer: bool,
    skipNoRoutes: bool,
    skipImportErrors: bool)

  function OrElse<T>(o: Option<T>, default: T): T {
    if o.Some? then o.value else default
  }

  /** The parameter list's destructuring defaults: a given value is kept, an undefined one is replaced. */
  function Resolve(u: UserOptions): (o: Options)
    ensures u.pattern.Some? ==> o.pattern == u.pattern.value
    ensures u.pattern.None? ==> o.pattern == "**/*.{ts,tsx,mjs,js,jsx,cjs}"
    ensures u.prefix.Some? ==> o.prefix == u.prefix.value
    ensures u.prefix.None? ==> o.prefix == ""
    ensures u.routesDir.Some? ==> o.routesDir == u.routesDir.value
    ensures u.routesDir.None? ==> o.routesDir == "./routes"
    ensures u.defaultMethod.Some? ==> o.defaultMethod == u.defaultMethod.value
    ensures u.defaultMethod.None? ==> o.defaultMethod == "get"
    ensures o.devServer == u.viteDevServer
    ensures u.skipNoRoutes.Some? ==> o.skipNoRoutes == u.skipNoRoutes.value
    ensures u.skipNoRoutes.None? ==> !o.skipNoRoutes
    ensures u.skipImportErrors.Some? ==> o.skipImportErrors == u.skipImportErrors.value
    ensures u.skipImportErrors.None? ==> !o.skipImportErrors
  {
    Options(
      OrElse(u.pattern, DefaultPattern),
      OrElse(u.prefix, ""),
      OrElse(u.routesDir, DefaultRoutesDir),
      OrElse(u.defaultMethod, DefaultMethod),
      u.viteDevServer,
      OrElse(u.skipNoRoutes, false),
      OrElse(u.skipImportErrors, false))
  }

  /** What a route module's default export is, as far as the routine can tell. */
  datatype Export = Falsy | Function(handler: nat) | OtherTruthy

  /** The collaborators. */
  datatype Env = Env(
    pathExists: string -> bool,             // fs.existsSync
    isDirectory: string -> bool,            // fs.statSync(..).isDirectory()
    glob: (string, string) -> seq<string>,  // (pattern, cwd) to the names found, Node or Bun alike
    modules: map<string, Export>,           // module reference to its default export; absent: the load rejects
    transform: string -> string,            // transformToRoute
    sort: seq<string> -> seq<string>)       // sortRoutesByParams

  /** Thrown errors, as tags with the value their message names. */
  datatype Failure =
    | DirectoryNotFound(dir: string)
    | NotADirectory(dir: string)
    | NoRoutesFound(dir: string)
    | ModuleNotFound(reference: string)
    | MissingDefaultExport(filepath: string)
    | MethodNotCallable(verb: string)

  /** `console.warn` for a default export that is not a function. */
  datatype Warning = NotAFunction(filepath: string)

  /** What one file of the loop does. */
  datatype Step = Register(reg: Registration) | Warn(warning: Warning) | Abort(failure: Failure)

  /** The effect of a run: registrations made, warnings logged, and the error thrown, if any. */
  datatype Outcome = Outcome(registered: seq<Registration>, warnings: seq<Warning>, error: Option<Failure>)

  /** What the loop works with once validation and scanning are done. */
  datatype Ctx = Ctx(entryDir: string, opts: Options, env: Env, methods: set<string>)

  /** The scanned names, each normalised. */
  function NormalizeAll(names: seq<string>): (files: seq<string>)
    ensures |files| == |names|
    ensures forall i :: 0 <= i < |names| ==> files[i] == NormalizeFile(names[i])
    ensures forall i :: 0 <= i < |files| ==> '\\' !in files[i]
  {
    seq(|names|, i requires 0 <= i < |names| => NormalizeFile(names[i]))
  }

  /** The default export the loader yields for `file`, or `None` when the load itself fails. */
  function ExportOf(c: Ctx, file: string): Option<Export>
  {
    var reference := ModuleRef(c.entryDir, file, c.opts.devServer);
    if reference in c.env.modules then Some(c.env.modules[reference]) else None
  }

  /** One iteration of the loop, for one file. */
  function FileStep(c: Ctx, file: string): Step
  {
    var filepath := ModulePath(c.entryDir, file);
    match ExportOf(c, file)
    case None => Abort(ModuleNotFound(ModuleRef(c.entryDir, file, c.opts.devServer)))
    case Some(imported) =>
      if imported.Falsy? && !c.opts.skipImportErrors then Abort(MissingDefaultExport(filepath))
      else if imported.Function? then
        var verb := MethodOf(file, c.opts.defaultMethod);
        if verb in c.methods then Register(Registration(verb, RouteOf(c.opts.prefix, file, c.env.transform), imported.handler))
        else Abort(MethodNotCallable(verb))
      else Warn(NotAFunction(filepath))
  }

  /** An outcome followed by one more step; nothing happens after an error. */
  function Advance(o: Outcome, s: Step): Outcome {
    if o.error.Some? then o
    else match s
      case Register(r) => o.(registered := o.registered + [r])
      case Warn(w) => o.(warnings := o.warnings + [w])
      case Abort(f) => o.(error := Some(f))
  }

  /** The loop over `files`, in order. */
  function Process(c: Ctx, files: seq<string>): Outcome
    decreases |files|
  {
    if files == [] then Outcome([], [], None)
    else Advance(Process(c, files[..|files| - 1]), FileStep(c, files[|files| - 1]))
  }

  /** The whole routine, on an application whose registration functions are `methods`. */
  function Run(opts: Options, env: Env, methods: set<string>): Outcome
  {
    var entryDir := ReplaceBackslashes(opts.routesDir);
    if !env.pathExists(entryDir) then Outcome([], [], Some(DirectoryNotFound(entryDir)))
    else if !env.isDirectory(entryDir) then Outcome([], [], Some(NotADirectory(entryDir)))
    else
      var files := NormalizeAll(env.glob(opts.pattern, entryDir));
      if |files| == 0 && !opts.skipNoRoutes then Outcome([], [], Some(NoRoutesFound(entryDir)))
      else Process(Ctx(entryDir, opts, env, methods), env.sort(files))
  }

  /** Once a prefix of the files has thrown, the rest of the files change nothing. */
  lemma {:induction false} ProcessAbortIsFinal(c: Ctx, files: seq<string>, n: nat)
    requires n <= |files|
    requires Process(c, files[..n]).error.Some?
    ensures Process(c, files) == Process(c, files[..n])
    decreases |files|
  {
    if n < |files| {
      var init := files[..|files| - 1];
      assert init[..n] == files[..n];
      ProcessAbortIsFinal(c, init, n);
    } else {
      assert files[..n] == files;
    }
  }

  /**
   * The routine itself. The application's route table grows by exactly the
   * registrations `Run` describes; the warnings and the error are returned.
   */
  method AutoloadRoutes(app: App, options: UserOptions, env: Env) returns (warnings: seq<Warning>, error: Option<Failure>)
    modifies app
    ensures app.routes == old(app.routes) + Run(Resolve(options), env, app.methods).registered
    ensures warnings == Run(Resolve(options), env, app.methods).warnings
    ensures error == Run(Resolve(options), env, app.methods).error
  {
    var opts := Resolve(options);
    var entryDir := ReplaceBackslashes(opts.routesDir);
    if !env.pathExists(entryDir) {
      return [], Some(DirectoryNotFound(entryDir));
    }
    if !env.isDirectory(entryDir) {
      return [], Some(NotADirectory(entryDir));
    }
    var files := NormalizeAll(env.glob(opts.pattern, entryDir));
    if |files| == 0 && !opts.skipNoRoutes {
      return [], Some(NoRoutesFound(entryDir));
    }
    warnings, error := RegisterRoutes(app, entryDir, opts, env, env.sort(files));
  }

  /**
   * The loop of the routine over the sorted names: load each module, then
   * register its default export, warn about it, or stop with an error.
   */
  method RegisterRoutes(app: App, entryDir: string, opts: Options, env: Env, sorted: seq<string>)
    returns (warnings: seq<Warning>, error: Option<Failure>)
    modifies app
    ensures app.routes == old(app.routes) + Process(Ctx(entryDir, opts, env, app.methods), sorted).registered
    ensures warnings == Process(Ctx(entryDir, opts, env, app.methods), sorted).warnings
    ensures error == Process(Ctx(entryDir, opts, env, app.methods), sorted).error
  {
    ghost var c := Ctx(entryDir, opts, env, app.methods);
    warnings, error := [], None;
    var i := 0;
    while i < |sorted|
      invariant 0 <= i <= |sorted|
      invariant app.routes == old(app.routes) + Process(c, sorted[..i]).registered
      invariant warnings == Process(c, sorted[..i]).warnings
      invariant Process(c, sorted[..i]).error.None?
    {
      var file := sorted[i];
      ghost var prev := Process(c, sorted[..i]);
      assert sorted[..i + 1][..i] == sorted[..i];
      assert Process(c, sorted[..i + 1]) == Advance(prev, FileStep(c, file));
      var filepath := ModulePath(entryDir, file);
      var reference := if opts.devServer then filepath else filepath + ".ts";
      assert reference == ModuleRef(entryDir, file, opts.devServer);
      if reference !in env.modules {
        assert FileStep(c, file) == Abort(ModuleNotFound(reference));
        ProcessAbortIsFinal(c, sorted, i + 1);
        return warnings, Some(ModuleNotFound(reference));
      }
      var imported := env.modules[reference];
      assert ExportOf(c, file) == Some(imported);
      if imported.Falsy? && !opts.skipImportErrors {
        assert FileStep(c, file) == Abort(MissingDefaultExport(filepath));
        ProcessAbortIsFinal(c, sorted, i + 1);
        return warnings, Some(MissingDefaultExport(filepath));
      }
      if imported.Function? {
        var verb := MethodOf(file, opts.defaultMethod);
        var route := RouteOf(opts.prefix, file, env.transform);
        var ok := app.Register(verb, route, imported.handler);
        if !ok {
          assert FileStep(c, file) == Abort(MethodNotCallable(verb));
          ProcessAbortIsFinal(c, sorted, i + 1);
          return warnings, Some(MethodNotCallable(verb));
        }
        assert FileStep(c, file) == Register(Registration(verb, route, imported.handler));
      } else {
        assert FileStep(c, file) == Warn(NotAFunction(filepath));
        warnings := warnings + [NotAFunction(filepath)];
      }
      i := i + 1;
    }
    assert sorted[..i] == sorted;
  }
}
