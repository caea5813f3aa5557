/** The Java code generator driver: choose the file generators the options
    ask for, validate all of them before anything is opened, then open one
    primary file per generator (and an annotation file when annotating),
    record every path, and finally write the optional path lists. */
module JavaGenerator {
  import opened JavaOptions

  datatype Outcome = Success | Failure(error: string)

  /** A per-file generator as the driver constructs it: the final options and
      the immutable-API flag it was built with. */
  datatype FileGenerator = FileGenerator(options: Options, immutableApi: bool)

  /** The paths a generator reports for the sibling files it writes itself. */
  datatype Siblings = Siblings(files: seq<string>, annotations: seq<string>)

  /** The collaborators the driver calls but does not define, as functions of
      the generator they are asked about:
      - validate: the generator's own check, Failure carrying the message it reports;
      - javaPackage, classname: the generator's Java package and outer class name;
      - packageToDir: the package-to-directory mapping;
      - generate: the lines the generator prints into its primary file;
      - annotationInfo: the serialized annotations collected while printing;
      - generateSiblings: the sibling file and annotation paths it adds for a package directory. */
  datatype Collaborators = Collaborators(
    validate: FileGenerator -> Outcome,
    javaPackage: FileGenerator -> string,
    classname: FileGenerator -> string,
    packageToDir: string -> string,
    generate: FileGenerator -> seq<string>,
    annotationInfo: FileGenerator -> seq<string>,
    generateSiblings: (FileGenerator, string) -> Siblings)

  /** An opened output: its path and what has been written to it, in order. */
  datatype Sink = Sink(path: string, content: seq<string>)

  /** The generator context, reduced to the log of the sinks it has opened. */
  class GeneratorContext {
    var sinks: seq<Sink>

    constructor ()
      ensures sinks == []
    {
      sinks := [];
    }

    /** Opens a new, empty sink at `path` and returns its position in the log. */
    method Open(path: string) returns (sink: nat)
      modifies this
      ensures sink == |old(sinks)| && sinks == old(sinks) + [Sink(path, [])]
    {
      sink := |sinks|;
      sinks := sinks + [Sink(path, [])];
    }

    /** Appends one line to an opened sink; every other sink is unchanged. */
    method Print(sink: nat, line: string)
      requires sink < |sinks|
      modifies this
      ensures sinks == old(sinks)[sink := Sink(old(sinks)[sink].path, old(sinks)[sink].content + [line])]
    {
      sinks := sinks[sink := Sink(sinks[sink].path, sinks[sink].content + [line])];
    }

    /** Appends a block of output to an opened sink; every other sink is unchanged. */
    method Write(sink: nat, text: seq<string>)
      requires sink < |sinks|
      modifies this
      ensures sinks == old(sinks)[sink := Sink(old(sinks)[sink].path, old(sinks)[sink].content + text)]
    {
      sinks := sinks[sink := Sink(sinks[sink].path, sinks[sink].content + text)];
    }
  }

  // ---------------------------------------------------------------------
  // Specification functions

  /** The generators the options ask for: the immutable one first, then the
      mutable one, which is built with the flag `false`. */
  function Generators(o: Options): (gens: seq<FileGenerator>)
    ensures |gens| == (if o.generateImmutableCode then 1 else 0) + (if o.generateMutableCode then 1 else 0)
    ensures o.generateImmutableCode ==> gens[0] == FileGenerator(o, true)
    ensures o.generateMutableCode ==> gens[|gens| - 1] == FileGenerator(o, false)
    ensures forall g :: g in gens ==> g.options == o
  {
    (if o.generateImmutableCode then [FileGenerator(o, true)] else []) +
    (if o.generateMutableCode then [FileGenerator(o, false)] else [])
  }

  /** The first failing validation, in generator order, or Success when every
      generator validates. */
  function FirstInvalid(env: Collaborators, gens: seq<FileGenerator>): (r: Outcome)
    ensures r.Success? <==> forall k :: 0 <= k < |gens| ==> env.validate(gens[k]).Success?
    ensures r.Failure? ==> exists k :: 0 <= k < |gens| && env.validate(gens[k]) == r
  {
    if gens == [] then Success
    else if env.validate(gens[0]).Failure? then env.validate(gens[0])
    else
      var rest := FirstInvalid(env, gens[1..]);
      assert forall k :: 1 <= k < |gens| ==> gens[k] == gens[1..][k - 1];
      rest
  }

  /** The directory of a generator's Java package; generators in the same
      package share it. */
  function PackageDir(env: Collaborators, g: FileGenerator): (dir: string)
    ensures forall h :: env.javaPackage(h) == env.javaPackage(g) ==> env.packageToDir(env.javaPackage(h)) == dir
  {
    env.packageToDir(env.javaPackage(g))
  }

  /** The primary file of a generator: package directory, class name, ".java". */
  function JavaFilename(env: Collaborators, g: FileGenerator): (path: string)
    ensures |path| >= 5 && path[|path| - 5..] == ".java"
    ensures path[..|path| - 5] == PackageDir(env, g) + env.classname(g)
  {
    PackageDir(env, g) + env.classname(g) + ".java"
  }

  /** The annotation file that belongs to a primary file. */
  function MetaFilename(env: Collaborators, g: FileGenerator): (path: string)
    ensures |path| >= 8 && path[|path| - 8..] == ".pb.meta"
    ensures path[..|path| - 8] == JavaFilename(env, g)
  {
    JavaFilename(env, g) + ".pb.meta"
  }

  /** What one generator contributes: its recorded files and annotations and
      the sinks the driver opens for it. */
  datatype Emitted = Emitted(files: seq<string>, annotations: seq<string>, sinks: seq<Sink>) {
    function Then(next: Emitted): Emitted {
      Emitted(files + next.files, annotations + next.annotations, sinks + next.sinks)
    }
  }

  const Nothing := Emitted([], [], [])

  /** One generator's contribution: the primary path before the sibling paths;
      the annotation path (before the siblings' annotations) only when
      annotating; the primary sink holds what the generator prints, and the
      annotation sink, opened only when annotating, what it collected. */
  function EmittedBy(env: Collaborators, g: FileGenerator, annotate: bool): (e: Emitted)
    ensures |e.files| >= 1 && e.files[0] == JavaFilename(env, g)
    ensures e.files[1..] == env.generateSiblings(g, PackageDir(env, g)).files
    ensures |e.sinks| == if annotate then 2 else 1
    ensures e.sinks[0] == Sink(JavaFilename(env, g), env.generate(g))
    ensures annotate ==> e.sinks[1] == Sink(MetaFilename(env, g), env.annotationInfo(g))
    ensures annotate ==> |e.annotations| >= 1 && e.annotations[0] == MetaFilename(env, g)
    ensures annotate ==> e.annotations[1..] == env.generateSiblings(g, PackageDir(env, g)).annotations
    ensures !annotate ==> e.annotations == env.generateSiblings(g, PackageDir(env, g)).annotations
  {
    var siblings := env.generateSiblings(g, PackageDir(env, g));
    Emitted(
      [JavaFilename(env, g)] + siblings.files,
      (if annotate then [MetaFilename(env, g)] else []) + siblings.annotations,
      [Sink(JavaFilename(env, g), env.generate(g))] +
      (if annotate then [Sink(MetaFilename(env, g), env.annotationInfo(g))] else []))
  }

  /** The contributions of the generators, in order. */
  function EmittedByAll(env: Collaborators, gens: seq<FileGenerator>, annotate: bool): (e: Emitted)
    ensures |e.sinks| == (if annotate then 2 else 1) * |gens|
    ensures |e.files| >= |gens|
    decreases |gens|
  {
    if gens == [] then Nothing
    else EmittedByAll(env, gens[..|gens| - 1], annotate).Then(EmittedBy(env, gens[|gens| - 1], annotate))
  }

  /** The lines of a path list: one "path\n" per entry, in order. */
  function ManifestLines(entries: seq<string>): (lines: seq<string>)
    ensures |lines| == |entries|
    ensures forall i :: 0 <= i < |entries| ==> lines[i] == entries[i] + "\n"
    decreases |entries|
  {
    if entries == [] then []
    else ManifestLines(entries[..|entries| - 1]) + [entries[|entries| - 1] + "\n"]
  }

  /** The sink a path list is written to: none when its path is empty. */
  function Manifest(path: string, entries: seq<string>): (r: seq<Sink>)
    ensures r == [] <==> path == ""
    ensures path != "" ==> |r| == 1 && r[0].path == path && r[0].content == ManifestLines(entries)
  {
    if path == "" then [] else [Sink(path, ManifestLines(entries))]
  }

  /** Everything one run of the driver produces: its outcome, the recorded
      file and annotation paths, and the sinks it opened, in order. */
  datatype Run = Run(outcome: Outcome, allFiles: seq<string>, allAnnotations: seq<string>, sinks: seq<Sink>)

  /** A run once the options are known: validation of every generator, then
      the generation loop and the two path lists. A run that fails
      validation records and opens nothing. */
  function Planned(env: Collaborators, o: Options): (run: Run)
    ensures run.outcome.Failure? ==> run.allFiles == [] && run.allAnnotations == [] && run.sinks == []
    ensures run.outcome.Success? <==> forall g :: g in Generators(o) ==> env.validate(g).Success?
  {
    var gens := Generators(o);
    match FirstInvalid(env, gens)
    case Failure(e) => Run(Failure(e), [], [], [])
    case Success =>
      var e := EmittedByAll(env, gens, o.annotateCode);
      Run(Success, e.files, e.annotations,
          e.sinks + Manifest(o.outputListFile, e.files) + Manifest(o.annotationListFile, e.annotations))
  }

  /** A whole run: the option pass, then the planned run. A run that fails
      records and opens nothing. */
  function Generation(env: Collaborators, opts: seq<RawOption>, opensourceRuntime: bool): (run: Run)
    ensures run.outcome.Failure? ==> run.allFiles == [] && run.allAnnotations == [] && run.sinks == []
  {
    match OptionsFrom(opts, opensourceRuntime)
    case Err(e) => Run(Failure(e), [], [], [])
    case Ok(o) => Planned(env, o)
  }

  // ---------------------------------------------------------------------
  // The driver

  /** Builds the generator list by appending, as the driver does. */
  method SelectGenerators(o: Options) returns (gens: seq<FileGenerator>)
    ensures gens == Generators(o)
    ensures |gens| <= 2
    ensures gens == [] <==> !o.generateImmutableCode && !o.generateMutableCode
  {
    gens := [];
    if o.generateImmutableCode {
      gens := gens + [FileGenerator(o, true)];
    }
    if o.generateMutableCode {
      gens := gens + [FileGenerator(o, false)];
    }
  }

  /** Validates every generator in order and stops at the first failure. */
  method ValidateAll(env: Collaborators, gens: seq<FileGenerator>) returns (r: Outcome)
    ensures r == FirstInvalid(env, gens)
  {
    for i := 0 to |gens|
      invariant FirstInvalid(env, gens[i..]) == FirstInvalid(env, gens)
    {
      var v := env.validate(gens[i]);
      if v.Failure? {
        return v;
      }
      assert gens[i..][1..] == gens[i + 1..];
    }
    assert gens[|gens|..] == [];
    r := Success;
  }

  /** Writes a path list: nothing when `path` is empty, otherwise one new sink
      at `path` that receives one line per entry. */
  method WriteFileList(ctx: GeneratorContext, path: string, entries: seq<string>)
    modifies ctx
    ensures ctx.sinks == old(ctx.sinks) + Manifest(path, entries)
  {
    if path != "" {
      var output := ctx.Open(path);
      for i := 0 to |entries|
        invariant ctx.sinks == old(ctx.sinks) + [Sink(path, ManifestLines(entries[..i]))]
      {
        ctx.Print(output, entries[i] + "\n");
        assert entries[..i + 1][..i] == entries[..i];
      }
      assert entries[..|entries|] == entries;
    }
  }

  /** One pass of the generation loop: records the primary path (and, when
      annotating, its annotation path), opens the primary sink and fills it,
      adds the sibling paths, and, when annotating, opens the annotation sink
      and fills it. */
  method GenerateFile(ctx: GeneratorContext, env: Collaborators, g: FileGenerator, annotate: bool)
    returns (files: seq<string>, annotations: seq<string>)
    modifies ctx
    ensures files == EmittedBy(env, g, annotate).files
    ensures annotations == EmittedBy(env, g, annotate).annotations
    ensures ctx.sinks == old(ctx.sinks) + EmittedBy(env, g, annotate).sinks
  {
    var packageDir := env.packageToDir(env.javaPackage(g));
    var javaFilename := packageDir + env.classname(g) + ".java";
    files := [javaFilename];
    var infoFullPath := javaFilename + ".pb.meta";
    annotations := [];
    if annotate {
      annotations := annotations + [infoFullPath];
    }

    var output := ctx.Open(javaFilename);
    ctx.Write(output, env.generate(g));
    assert [] + env.generate(g) == env.generate(g);

    var siblings := env.generateSiblings(g, packageDir);
    files := files + siblings.files;
    annotations := annotations + siblings.annotations;

    if annotate {
      var infoOutput := ctx.Open(infoFullPath);
      ctx.Write(infoOutput, env.annotationInfo(g));
      assert [] + env.annotationInfo(g) == env.annotationInfo(g);
    }
  }

  /** The generation loop: every generator in order, after all of them have
      validated. */
  method GenerateAll(ctx: GeneratorContext, env: Collaborators, gens: seq<FileGenerator>, annotate: bool)
    returns (allFiles: seq<string>, allAnnotations: seq<string>)
    modifies ctx
    ensures allFiles == EmittedByAll(env, gens, annotate).files
    ensures allAnnotations == EmittedByAll(env, gens, annotate).annotations
    ensures ctx.sinks == old(ctx.sinks) + EmittedByAll(env, gens, annotate).sinks
  {
    allFiles, allAnnotations := [], [];
    for i := 0 to |gens|
      invariant allFiles == EmittedByAll(env, gens[..i], annotate).files
      invariant allAnnotations == EmittedByAll(env, gens[..i], annotate).annotations
      invariant ctx.sinks == old(ctx.sinks) + EmittedByAll(env, gens[..i], annotate).sinks
    {
      ghost var done := EmittedByAll(env, gens[..i], annotate);
      var files, annotations := GenerateFile(ctx, env, gens[i], annotate);
      allFiles := allFiles + files;
      allAnnotations := allAnnotations + annotations;
      assert gens[..i + 1][..i] == gens[..i];
      assert EmittedByAll(env, gens[..i + 1], annotate) == done.Then(EmittedBy(env, gens[i], annotate));
    }
    assert gens[..|gens|] == gens;
  }

  /** Everything after the option pass: build the generators, validate all
      of them, and only then run the generation loop and write the two path
      lists. */
  method RunPlan(ctx: GeneratorContext, env: Collaborators, fileOptions: Options)
    returns (outcome: Outcome, allFiles: seq<string>, allAnnotations: seq<string>)
    modifies ctx
    ensures outcome == Planned(env, fileOptions).outcome
    ensures allFiles == Planned(env, fileOptions).allFiles
    ensures allAnnotations == Planned(env, fileOptions).allAnnotations
    ensures ctx.sinks == old(ctx.sinks) + Planned(env, fileOptions).sinks
  {
    var fileGenerators := SelectGenerators(fileOptions);
    var validation := ValidateAll(env, fileGenerators);
    if validation.Failure? {
      return validation, [], [];
    }

    allFiles, allAnnotations := GenerateAll(ctx, env, fileGenerators, fileOptions.annotateCode);
    ghost var emitted := EmittedByAll(env, fileGenerators, fileOptions.annotateCode).sinks;
    ghost var fileList := Manifest(fileOptions.outputListFile, allFiles);
    ghost var annotationList := Manifest(fileOptions.annotationListFile, allAnnotations);
    WriteFileList(ctx, fileOptions.outputListFile, allFiles);
    WriteFileList(ctx, fileOptions.annotationListFile, allAnnotations);
    assert ctx.sinks == old(ctx.sinks) + (emitted + fileList + annotationList);
    assert Planned(env, fileOptions) == Run(Success, allFiles, allAnnotations, emitted + fileList + annotationList);
    outcome := Success;
  }

  /** The driver. It returns the outcome and the recorded path lists, and
      leaves in the context exactly the sinks the run opens. */
  method Generate(ctx: GeneratorContext, env: Collaborators, opts: seq<RawOption>, opensourceRuntime: bool)
    returns (outcome: Outcome, allFiles: seq<string>, allAnnotations: seq<string>)
    modifies ctx
    ensures outcome == Generation(env, opts, opensourceRuntime).outcome
    ensures allFiles == Generation(env, opts, opensourceRuntime).allFiles
    ensures allAnnotations == Generation(env, opts, opensourceRuntime).allAnnotations
    ensures ctx.sinks == old(ctx.sinks) + Generation(env, opts, opensourceRuntime).sinks
  {
    var parsed := ParseOptions(opts, opensourceRuntime);
    if parsed.Err? {
      return Failure(parsed.error), [], [];
    }
    outcome, allFiles, allAnnotations := RunPlan(ctx, env, parsed.value);
  }
}
