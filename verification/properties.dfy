/** Properties of whole driver runs and of the generation loop, stated over
    the specification functions the driver methods are proved against. */
module GeneratorProperties {
  import opened JavaOptions
  import opened JavaGenerator

  // ---------------------------------------------------------------------
  // Option errors

  /** The first unknown key ends the run with a message naming it; nothing is
      recorded and no sink is opened, whatever the later options are (a
      lite/mutable clash after it included). */
  lemma UnknownOptionAborts(env: Collaborators, opts: seq<RawOption>, opensourceRuntime: bool, i: nat)
    requires i < |opts| && opts[i].key !in KnownKeys
    requires forall j :: 0 <= j < i ==> opts[j].key in KnownKeys
    ensures Generation(env, opts, opensourceRuntime) ==
      Run(Failure(UnknownOptionMessage(opts[i].key)), [], [], [])
  {
    FirstUnknownOptionRejected(opts, opensourceRuntime, i);
  }

  /** `lite` together with `mutable`, in either order, ends the run with the
      fixed message before anything is opened. */
  lemma LiteWithMutableAborts(env: Collaborators, opts: seq<RawOption>, opensourceRuntime: bool)
    requires AllKnown(opts) && HasKey(opts, "lite") && HasKey(opts, "mutable")
    ensures Generation(env, opts, opensourceRuntime) == Run(Failure(LiteWithMutableMessage), [], [], [])
  {
    KnownOptionsMeaning(opts, opensourceRuntime);
  }

  // ---------------------------------------------------------------------
  // Plan selection and validation

  /** With no options the run uses exactly one generator: the immutable one,
      built from options that ask for immutable and shared code. */
  lemma NoOptionsUsesImmutableGenerator(opensourceRuntime: bool)
    ensures OptionsFrom([], opensourceRuntime).Ok?
    ensures Generators(OptionsFrom([], opensourceRuntime).value) ==
      [FileGenerator(Options(true, false, true, false, false, "", "", opensourceRuntime), true)]
  {
    NoOptionsDefaults(opensourceRuntime);
  }

  /** `shared` alone asks for no generator: the run succeeds, records no path
      and opens only the path lists. */
  lemma SharedAloneRecordsNothing(env: Collaborators, opts: seq<RawOption>, opensourceRuntime: bool)
    requires AllKnown(opts) && HasKey(opts, "shared")
    requires !HasKey(opts, "immutable") && !HasKey(opts, "mutable")
    ensures OptionsFrom(opts, opensourceRuntime).Ok?
    ensures var o := OptionsFrom(opts, opensourceRuntime).value;
      Generation(env, opts, opensourceRuntime) ==
        Run(Success, [], [], Manifest(o.outputListFile, []) + Manifest(o.annotationListFile, []))
  {
    KnownOptionsMeaning(opts, opensourceRuntime);
  }

  lemma {:induction false} FirstInvalidAt(env: Collaborators, gens: seq<FileGenerator>, k: nat)
    requires k < |gens| && env.validate(gens[k]).Failure?
    requires forall j :: 0 <= j < k ==> env.validate(gens[j]).Success?
    ensures FirstInvalid(env, gens) == env.validate(gens[k])
  {
    if k > 0 {
      assert gens[1..][k - 1] == gens[k];
      FirstInvalidAt(env, gens[1..], k - 1);
    }
  }

  /** A generator that fails validation ends the run with its message, and
      nothing is recorded or opened even when generators before it validated:
      every generator is validated before the first sink is opened. */
  lemma InvalidGeneratorAborts(env: Collaborators, opts: seq<RawOption>, opensourceRuntime: bool, k: nat)
    requires OptionsFrom(opts, opensourceRuntime).Ok?
    requires var gens := Generators(OptionsFrom(opts, opensourceRuntime).value);
      && k < |gens| && env.validate(gens[k]).Failure?
      && forall j :: 0 <= j < k ==> env.validate(gens[j]).Success?
    ensures var gens := Generators(OptionsFrom(opts, opensourceRuntime).value);
      Generation(env, opts, opensourceRuntime) == Run(env.validate(gens[k]), [], [], [])
  {
    FirstInvalidAt(env, Generators(OptionsFrom(opts, opensourceRuntime).value), k);
  }

  /** A run succeeds exactly when the option pass succeeds and every
      generator it asks for validates. A successful run opens the sinks of
      the generation loop, then the file list (when its path is set), then
      the annotation list (when its path is set), each holding one line per
      recorded path. */
  lemma RunSucceeds(env: Collaborators, opts: seq<RawOption>, opensourceRuntime: bool)
    ensures Generation(env, opts, opensourceRuntime).outcome.Success? <==>
      && OptionsFrom(opts, opensourceRuntime).Ok?
      && var gens := Generators(OptionsFrom(opts, opensourceRuntime).value);
         forall k :: 0 <= k < |gens| ==> env.validate(gens[k]).Success?
    ensures Generation(env, opts, opensourceRuntime).outcome.Success? ==>
      var o := OptionsFrom(opts, opensourceRuntime).value;
      var run := Generation(env, opts, opensourceRuntime);
      && run.allFiles == EmittedByAll(env, Generators(o), o.annotateCode).files
      && run.allAnnotations == EmittedByAll(env, Generators(o), o.annotateCode).annotations
      && run.sinks == EmittedByAll(env, Generators(o), o.annotateCode).sinks
           + Manifest(o.outputListFile, run.allFiles) + Manifest(o.annotationListFile, run.allAnnotations)
  {
  }

  // ---------------------------------------------------------------------
  // Output bookkeeping

  lemma ThenAssociative(a: Emitted, b: Emitted, c: Emitted)
    ensures a.Then(b).Then(c) == a.Then(b.Then(c))
  {
    assert (a.files + b.files) + c.files == a.files + (b.files + c.files);
    assert (a.annotations + b.annotations) + c.annotations == a.annotations + (b.annotations + c.annotations);
    assert (a.sinks + b.sinks) + c.sinks == a.sinks + (b.sinks + c.sinks);
  }

  lemma {:induction false} EmittedByAllAppend(env: Collaborators, xs: seq<FileGenerator>, ys: seq<FileGenerator>, annotate: bool)
    ensures EmittedByAll(env, xs + ys, annotate) == EmittedByAll(env, xs, annotate).Then(EmittedByAll(env, ys, annotate))
    decreases |ys|
  {
    var a := EmittedByAll(env, xs, annotate);
    if ys == [] {
      assert xs + ys == xs;
      assert a.files + [] == a.files && a.annotations + [] == a.annotations && a.sinks + [] == a.sinks;
    } else {
      var n := |ys| - 1;
      var zs := xs + ys;
      assert zs[..|zs| - 1] == xs + ys[..n];
      assert zs[|zs| - 1] == ys[n];
      var b := EmittedByAll(env, ys[..n], annotate);
      var c := EmittedBy(env, ys[n], annotate);
      assert EmittedByAll(env, zs, annotate) == EmittedByAll(env, xs + ys[..n], annotate).Then(c);
      EmittedByAllAppend(env, xs, ys[..n], annotate);
      assert EmittedByAll(env, ys, annotate) == b.Then(c);
      ThenAssociative(a, b, c);
    }
  }

  /** The generators' contributions appear in generator order: the part of
      generator k (its primary path first, then its sibling paths; its
      annotation path, when annotating, before its siblings' annotations; its
      primary sink, then its annotation sink) comes after everything of the
      generators before it and before everything of those after it. */
  lemma EmissionOrder(env: Collaborators, gens: seq<FileGenerator>, annotate: bool, k: nat)
    requires k < |gens|
    ensures EmittedByAll(env, gens, annotate) ==
      EmittedByAll(env, gens[..k], annotate).Then(EmittedBy(env, gens[k], annotate)).Then(EmittedByAll(env, gens[k + 1..], annotate))
  {
    assert gens == gens[..k] + [gens[k]] + gens[k + 1..];
    EmittedByAllAppend(env, gens[..k] + [gens[k]], gens[k + 1..], annotate);
    EmittedByAllAppend(env, gens[..k], [gens[k]], annotate);
    assert EmittedByAll(env, [gens[k]], annotate) == Nothing.Then(EmittedBy(env, gens[k], annotate));
    assert [gens[k]][..0] == [];
  }

  /** Where generator k's sinks sit among those the generation loop opens:
      with annotations on, its primary sink is the (2k)-th and its annotation
      sink the (2k+1)-th; with them off, its primary sink is the k-th and no
      annotation sink is opened. */
  lemma SinkPositions(env: Collaborators, gens: seq<FileGenerator>, annotate: bool, k: nat)
    requires k < |gens|
    ensures var s := EmittedByAll(env, gens, annotate).sinks;
      && (annotate ==>
            s[2 * k] == Sink(JavaFilename(env, gens[k]), env.generate(gens[k])) &&
            s[2 * k + 1] == Sink(MetaFilename(env, gens[k]), env.annotationInfo(gens[k])))
      && (!annotate ==> s[k] == Sink(JavaFilename(env, gens[k]), env.generate(gens[k])))
  {
    EmissionOrder(env, gens, annotate, k);
  }

  /** Without `annotate_code` the driver adds no annotation path of its own:
      when the siblings report none either, the annotation list is empty. */
  lemma {:induction false} NoAnnotationsWithoutAnnotateCode(env: Collaborators, gens: seq<FileGenerator>)
    requires forall k :: 0 <= k < |gens| ==> env.generateSiblings(gens[k], PackageDir(env, gens[k])).annotations == []
    ensures EmittedByAll(env, gens, false).annotations == []
    decreases |gens|
  {
    if gens != [] {
      NoAnnotationsWithoutAnnotateCode(env, gens[..|gens| - 1]);
    }
  }

  /** A path list with a path is one sink at that path holding exactly one
      line per entry: line i is entry i followed by a newline. */
  lemma ManifestContents(path: string, entries: seq<string>)
    requires path != ""
    ensures |Manifest(path, entries)| == 1
    ensures Manifest(path, entries)[0].path == path
    ensures |Manifest(path, entries)[0].content| == |entries|
    ensures forall i :: 0 <= i < |entries| ==> Manifest(path, entries)[0].content[i] == entries[i] + "\n"
  {
  }

  /** A path list written after two generated files holds exactly their two
      lines, in generation order. */
  lemma TwoFileManifest()
    ensures Manifest("manifest.txt", ["A.java", "B.java"]) == [Sink("manifest.txt", ["A.java\n", "B.java\n"])]
  {
    var entries := ["A.java", "B.java"];
    assert ManifestLines(entries) == [entries[0] + "\n", entries[1] + "\n"];
    assert entries[0] + "\n" == "A.java\n" && entries[1] + "\n" == "B.java\n";
  }
}
