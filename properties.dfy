/**
 * What the autoload routine guarantees, stated about the functions `Process`
 * and `Run` that its method is proved against.
 */
module AutoloadProperties {
  import opened Wrappers
  import opened Paths
  import opened Router
  import opened Autoload

  /** The number of registrations made before the file at index `i` is handled. */
  function Slot(c: Ctx, files: seq<string>, i: nat): nat
    requires i <= |files|
  {
    |Process(c, files[..i]).registered|
  }

  /** Handling one more file is one more `Advance`. */
  lemma ProcessNext(c: Ctx, files: seq<string>, i: nat)
    requires i < |files|
    ensures Process(c, files[..i + 1]) == Advance(Process(c, files[..i]), FileStep(c, files[i]))
  {
    assert files[..i + 1][..i] == files[..i];
  }

  /**
   * What a prefix of the files did is kept by the whole run: its registrations
   * and warnings come first, and if the whole run succeeded so did the prefix.
   */
  lemma {:induction false} ProcessKeepsEarlier(c: Ctx, files: seq<string>, n: nat)
    requires n <= |files|
    ensures Process(c, files[..n]).registered <= Process(c, files).registered
    ensures Process(c, files[..n]).warnings <= Process(c, files).warnings
    ensures Process(c, files).error.None? ==> Process(c, files[..n]).error.None?
    decreases |files|
  {
    if n == |files| {
      assert files[..n] == files;
    } else {
      var init := files[..|files| - 1];
      assert init[..n] == files[..n];
      ProcessKeepsEarlier(c, init, n);
    }
  }

  /**
   * Each file accounts for at most one registration or one warning; in a run
   * without error every file accounts for exactly one.
   */
  lemma {:induction false} ProcessCounts(c: Ctx, files: seq<string>)
    ensures |Process(c, files).registered| + |Process(c, files).warnings| <= |files|
    ensures Process(c, files).error.None? ==>
      |Process(c, files).registered| + |Process(c, files).warnings| == |files|
    decreases |files|
  {
    if files != [] {
      ProcessCounts(c, files[..|files| - 1]);
    }
  }

  /** A file whose step registers, reached without an error, has its registration at its slot. */
  lemma RegistrationAtSlot(c: Ctx, files: seq<string>, i: nat, r: Registration)
    requires i < |files|
    requires Process(c, files[..i]).error.None?
    requires FileStep(c, files[i]) == Register(r)
    ensures Slot(c, files, i) < |Process(c, files).registered|
    ensures Process(c, files).registered[Slot(c, files, i)] == r
  {
    ProcessNext(c, files, i);
    ProcessKeepsEarlier(c, files, i + 1);
  }

  /** Registrations keep the order of the files: a registering file's slot is below every later file's slot. */
  lemma RegistrationsInFileOrder(c: Ctx, files: seq<string>, i: nat, k: nat)
    requires i < k <= |files|
    requires Process(c, files[..i]).error.None?
    requires FileStep(c, files[i]).Register?
    ensures Slot(c, files, i) < Slot(c, files, k)
  {
    var upto := files[..k];
    assert upto[..i + 1] == files[..i + 1];
    assert upto[..k] == upto;
    ProcessNext(c, files, i);
    assert Slot(c, files, i + 1) == Slot(c, files, i) + 1;
    ProcessKeepsEarlier(c, upto, i + 1);
    assert |Process(c, upto[..i + 1]).registered| <= |Process(c, upto).registered|;
  }

  /**
   * The file at index `i` may be where registration `j` of the run comes from:
   * it is reached without an error and `j` is its slot.
   */
  ghost predicate IsOrigin(c: Ctx, files: seq<string>, j: nat, i: nat) {
    && i < |files|
    && Slot(c, files, i) == j
    && Process(c, files[..i]).error.None?
  }

  /** Every registration of a run comes from one file of the list: `i` is the file registration `j` comes from. */
  lemma {:induction false} OriginOf(c: Ctx, files: seq<string>, j: nat) returns (i: nat)
    requires j < |Process(c, files).registered|
    ensures IsOrigin(c, files, j, i)
    ensures FileStep(c, files[i]) == Register(Process(c, files).registered[j])
    decreases |files|
  {
    var n := |files| - 1;
    var init := files[..n];
    var p := Process(c, init);
    assert Process(c, files) == Advance(p, FileStep(c, files[n]));
    assert Slot(c, files, n) == |p.registered|;
    if j < |p.registered| {
      i := OriginOf(c, init, j);
      assert init[..i] == files[..i];
      assert files[i] == init[i];
    } else {
      i := n;
    }
  }

  /** The conditions under which one file is registered, and what it is registered as. */
  lemma FileRegisters(c: Ctx, file: string, r: Registration)
    ensures FileStep(c, file) == Register(r) <==>
      && ExportOf(c, file) == Some(Function(r.handler))
      && r.verb == MethodOf(file, c.opts.defaultMethod)
      && r.verb in c.methods
      && r.route == RouteOf(c.opts.prefix, file, c.env.transform)
  {
  }

  /**
   * Every registered route is the prefix, a slash and the transformed name of
   * a file of the list, registered under that file's method with its default export.
   */
  lemma RegisteredRoutes(c: Ctx, files: seq<string>, j: nat)
    requires j < |Process(c, files).registered|
    ensures var r := Process(c, files).registered[j];
      && |c.opts.prefix| < |r.route|
      && r.route[..|c.opts.prefix|] == c.opts.prefix
      && r.route[|c.opts.prefix|] == '/'
      && exists i :: 0 <= i < |files| &&
           r.route == RouteOf(c.opts.prefix, files[i], c.env.transform) &&
           r.verb == MethodOf(files[i], c.opts.defaultMethod) &&
           ExportOf(c, files[i]) == Some(Function(r.handler))
  {
    var r := Process(c, files).registered[j];
    var i := OriginOf(c, files, j);
    FileRegisters(c, files[i], r);
  }

  /** A run that throws stops at one file: everything before it ran without error, and nothing after it ran. */
  lemma {:induction false} AbortStopsAtFile(c: Ctx, files: seq<string>)
    requires Process(c, files).error.Some?
    ensures exists i :: (0 <= i < |files| && Process(c, files[..i]).error.None? &&
                         FileStep(c, files[i]) == Abort(Process(c, files).error.value) &&
                         Process(c, files) == Process(c, files[..i]).(error := Process(c, files).error))
    decreases |files|
  {
    var n := |files| - 1;
    var init := files[..n];
    var p := Process(c, init);
    assert files[..n] == init;
    if p.error.Some? {
      AbortStopsAtFile(c, init);
      var i :| 0 <= i < |init| && Process(c, init[..i]).error.None? &&
        FileStep(c, init[i]) == Abort(p.error.value) && p == Process(c, init[..i]).(error := p.error);
      assert init[..i] == files[..i];
      assert files[i] == init[i];
      ProcessAbortIsFinal(c, files, n);
      assert Process(c, files[..i]).error.None? && FileStep(c, files[i]) == Abort(Process(c, files).error.value) &&
        Process(c, files) == Process(c, files[..i]).(error := Process(c, files).error);
    } else {
      assert Process(c, files) == Advance(p, FileStep(c, files[n]));
      assert Process(c, files[..n]).error.None? && FileStep(c, files[n]) == Abort(Process(c, files).error.value) &&
        Process(c, files) == Process(c, files[..n]).(error := Process(c, files).error);
    }
  }

  /**
   * The conditions under which one file throws, and what: a module that does not
   * load, a falsy default export when import errors are not skipped, or a method
   * name the application has no registration function for.
   */
  lemma FileAborts(c: Ctx, file: string, f: Failure)
    ensures FileStep(c, file) == Abort(f) <==>
      || (ExportOf(c, file) == None && f == ModuleNotFound(ModuleRef(c.entryDir, file, c.opts.devServer)))
      || (ExportOf(c, file) == Some(Falsy) && !c.opts.skipImportErrors && f == MissingDefaultExport(ModulePath(c.entryDir, file)))
      || (ExportOf(c, file).Some? && ExportOf(c, file).value.Function? &&
          MethodOf(file, c.opts.defaultMethod) !in c.methods && f == MethodNotCallable(MethodOf(file, c.opts.defaultMethod)))
  {
  }

  /**
   * A falsy default export, with import errors not skipped, ends the run with
   * `MissingDefaultExport`; what earlier files registered and warned stays.
   */
  lemma FalsyExportAborts(c: Ctx, files: seq<string>, i: nat)
    requires i < |files|
    requires Process(c, files[..i]).error.None?
    requires ExportOf(c, files[i]) == Some(Falsy)
    requires !c.opts.skipImportErrors
    ensures Process(c, files) ==
      Process(c, files[..i]).(error := Some(MissingDefaultExport(ModulePath(c.entryDir, files[i]))))
  {
    ProcessNext(c, files, i);
    ProcessAbortIsFinal(c, files, i + 1);
  }

  /**
   * A default export that is not a function, and a falsy one when import errors
   * are skipped, gets one warning and no registration, and the run goes on.
   */
  lemma NonFunctionExportWarns(c: Ctx, files: seq<string>, i: nat)
    requires i < |files|
    requires Process(c, files[..i]).error.None?
    requires ExportOf(c, files[i]) == Some(OtherTruthy) ||
      (ExportOf(c, files[i]) == Some(Falsy) && c.opts.skipImportErrors)
    ensures var before := Process(c, files[..i]);
      Process(c, files[..i + 1]) ==
        before.(warnings := before.warnings + [NotAFunction(ModulePath(c.entryDir, files[i]))])
  {
    ProcessNext(c, files, i);
  }

  /** With import errors skipped, no run ever throws `MissingDefaultExport`. */
  lemma {:induction false} SkippedImportErrorsDoNotThrow(c: Ctx, files: seq<string>)
    requires c.opts.skipImportErrors
    ensures Process(c, files).error.None? || !Process(c, files).error.value.MissingDefaultExport?
    decreases |files|
  {
    if files != [] {
      SkippedImportErrorsDoNotThrow(c, files[..|files| - 1]);
    }
  }

  /**
   * A run without error registers every file whose default export is a
   * function, each at its own slot, and warns once for every other file.
   */
  lemma {:induction false} SuccessfulRunHandlesEveryFile(c: Ctx, files: seq<string>, i: nat)
    requires i < |files|
    requires Process(c, files).error.None?
    ensures ExportOf(c, files[i]).Some?
    ensures ExportOf(c, files[i]).value.Function? ==> Slot(c, files, i) < |Process(c, files).registered|
    ensures ExportOf(c, files[i]).value.Function? ==>
      Process(c, files).registered[Slot(c, files, i)] ==
        Registration(MethodOf(files[i], c.opts.defaultMethod),
                     RouteOf(c.opts.prefix, files[i], c.env.transform),
                     ExportOf(c, files[i]).value.handler)
    ensures !ExportOf(c, files[i]).value.Function? ==>
      Slot(c, files, i + 1) == Slot(c, files, i) &&
      Process(c, files[..i + 1]).warnings ==
        Process(c, files[..i]).warnings + [NotAFunction(ModulePath(c.entryDir, files[i]))]
  {
    ProcessKeepsEarlier(c, files, i + 1);
    ProcessNext(c, files, i);
    var step := FileStep(c, files[i]);
    if step.Register? {
      RegistrationAtSlot(c, files, i, step.reg);
    }
  }

  /** The routes directory is validated before anything else: a missing path, then a non-directory. */
  lemma DirectoryChecksComeFirst(opts: Options, env: Env, methods: set<string>)
    ensures var dir := ReplaceBackslashes(opts.routesDir);
      && (!env.pathExists(dir) ==> Run(opts, env, methods) == Outcome([], [], Some(DirectoryNotFound(dir))))
      && (env.pathExists(dir) && !env.isDirectory(dir) ==>
            Run(opts, env, methods) == Outcome([], [], Some(NotADirectory(dir))))
  {
  }

  /**
   * An empty scan throws `NoRoutesFound` unless `skipNoRoutes` is set; then,
   * when the sorter leaves the empty list empty, nothing at all happens.
   */
  lemma EmptyScan(opts: Options, env: Env, methods: set<string>)
    requires var dir := ReplaceBackslashes(opts.routesDir);
      env.pathExists(dir) && env.isDirectory(dir) && env.glob(opts.pattern, dir) == []
    ensures !opts.skipNoRoutes ==>
      Run(opts, env, methods) == Outcome([], [], Some(NoRoutesFound(ReplaceBackslashes(opts.routesDir))))
    ensures opts.skipNoRoutes && env.sort([]) == [] ==> Run(opts, env, methods) == Outcome([], [], None)
  {
    assert NormalizeAll([]) == [];
  }

  /**
   * A run that registers, warns or succeeds got past validation: the routes
   * directory exists, is a directory, and the scan found names or empty scans
   * are allowed.
   */
  lemma RunNeedsValidation(opts: Options, env: Env, methods: set<string>)
    ensures var o, dir := Run(opts, env, methods), ReplaceBackslashes(opts.routesDir);
      (o.error.None? || o.registered != [] || o.warnings != []) ==>
        && env.pathExists(dir) && env.isDirectory(dir)
        && (env.glob(opts.pattern, dir) != [] || opts.skipNoRoutes)
  {
  }
}
