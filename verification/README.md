# Java code generator driver of protoc, in Dafny

This project models `JavaGenerator::Generate`, the driver of protoc's Java code
generator. For one `.proto` file it does three things:

- It folds the ordered `(key, value)` generator options into an options record.
  It stops at the first unknown key. It refuses `lite` together with `mutable`.
  When no variant was requested, it switches on the immutable and shared variants.
- It builds the list of file generators (immutable first, then mutable) and
  validates every one of them before any output is opened.
- For each generator it opens the primary `<package dir><class name>.java` file
  and, with `annotate_code`, the `<java file>.pb.meta` annotation file. It
  records these paths together with the generators' sibling paths. At the end
  it writes the optional path lists (`output_list_file`,
  `annotation_list_file`), one `path\n` line per recorded path.

The modules are:

- `JavaOptions` (options.dfy). The option pass, as specification functions
  (`ApplyOption`, `FoldOptions`, `OptionsFrom`) and as the loop the driver
  runs (`ParseOptions`), with lemmas saying what the pass computes.
- `JavaGenerator` (generator.dfy). The other parts of the driver:
  - the collaborators it calls, as function-valued fields of `Collaborators`;
  - the generator context, as a class holding the log of opened sinks;
  - the driver itself, as methods (`SelectGenerators`, `ValidateAll`,
    `GenerateFile`, `GenerateAll`, `WriteFileList`, `RunPlan`, `Generate`),
    each proved against a specification function. `Generation` specifies a
    whole run and `Planned` the part after the option pass.
- `GeneratorProperties` (properties.dfy). Lemmas about whole runs and about
  the order of what is recorded and opened.

The error slot and the `bool` result become an `Outcome` (`Success` or
`Failure(error)`). `Generate` also returns the two recorded path lists, which
are local variables in the source, so that contracts can name them.

## Model

| member | source | states |
|---|---|---|
| `JavaOptions.InitialOptions` | contrib/libs/protoc/src/google/protobuf/compiler/java/generator.cc:74-76 | Before any option is applied, every flag is off, both list paths are empty, and the open-source flag is the generator's own. |
| `JavaOptions.ApplyOption` | contrib/libs/protoc/src/google/protobuf/compiler/java/generator.cc:79-98 | An unknown key gives the error "Unknown generator option: " + key. A known flag key switches on exactly its own flag. A path key replaces exactly its own path. No other field changes, including the open-source flag. |
| `JavaOptions.FoldOptions` | contrib/libs/protoc/src/google/protobuf/compiler/java/generator.cc:78-99 | The fold succeeds iff every key is known, and it never changes the open-source flag. |
| `JavaOptions.FoldStopsAtUnknown` | contrib/libs/protoc/src/google/protobuf/compiler/java/generator.cc:95-98 | Once the fold reaches an unknown key, the result is the error naming that key, whatever options follow. |
| `JavaOptions.FoldOptionsMeaning` | contrib/libs/protoc/src/google/protobuf/compiler/java/generator.cc:78-99 | On known keys the fold equals an order-independent description: each flag is on iff it was already on or its key occurs; each path is the value of its key's last occurrence (last wins), or is unchanged when the key never occurs. |
| `JavaOptions.WithDefaultVariants` | contrib/libs/protoc/src/google/protobuf/compiler/java/generator.cc:106-112 | When no variant flag is set, exactly immutable and shared are switched on; otherwise the record is unchanged. Mutable and every other field are never changed, and afterwards some variant flag is on. |
| `JavaOptions.OptionsFrom` | contrib/libs/protoc/src/google/protobuf/compiler/java/generator.cc:74-112 | A successful option pass asks for at least one variant, never combines lite with mutable, and carries the generator's own open-source flag. |
| `JavaOptions.ParseOptions` | contrib/libs/protoc/src/google/protobuf/compiler/java/generator.cc:74-112 | The in-place loop with early return computes exactly `OptionsFrom`. |
| `JavaOptions.FirstUnknownOptionRejected` | contrib/libs/protoc/src/google/protobuf/compiler/java/generator.cc:78-104 | The pass fails with the message for the FIRST unknown key. This holds even when later options would trigger the lite/mutable refusal, because that check runs only after the loop. |
| `JavaOptions.KnownOptionsMeaning` | contrib/libs/protoc/src/google/protobuf/compiler/java/generator.cc:76-112 | On known keys the pass fails iff both `lite` and `mutable` occur (in any order), with the fixed message. Otherwise: mutable, lite and annotate_code are on iff their keys occur; immutable (resp. shared) is on iff its key occurs or none of immutable/mutable/shared occurs; each path is last-wins, "" when absent; the open-source flag is the generator's. |
| `JavaOptions.NoOptionsDefaults` | contrib/libs/protoc/src/google/protobuf/compiler/java/generator.cc:106-112 | With no options, exactly immutable and shared are on and both paths are empty. |
| `JavaOptions.RepeatedFlagIgnored` | contrib/libs/protoc/src/google/protobuf/compiler/java/generator.cc:81-92 | Repeating a flag key that already occurred does not change the result of the pass. |
| `JavaOptions.PathOptionLastWins` | contrib/libs/protoc/src/google/protobuf/compiler/java/generator.cc:79-94 | An `output_list_file` or `annotation_list_file` option given last decides that path. |
| `JavaGenerator.GeneratorContext.Open` | contrib/libs/protoc/src/google/protobuf/compiler/java/generator.cc:151-152 | Opening appends one new, empty sink at the given path to the log. The method returns the sink's position. |
| `JavaGenerator.GeneratorContext.Print` | contrib/libs/protoc/src/google/protobuf/compiler/java/generator.cc:184 | A print appends one line to the named sink and changes no other sink. |
| `JavaGenerator.GeneratorContext.Write` | contrib/libs/protoc/src/google/protobuf/compiler/java/generator.cc:160 | A generator's output (or the serialized annotations) is appended to the named sink, and no other sink changes. |
| `JavaGenerator.Generators` | contrib/libs/protoc/src/google/protobuf/compiler/java/generator.cc:121-131 | One generator per requested variant: with immutable on, the first is built with the flag true; with mutable on, the last is built with the flag false. All are built from the final options. `shared` adds none. |
| `JavaGenerator.SelectGenerators` | contrib/libs/protoc/src/google/protobuf/compiler/java/generator.cc:121-131 | There is one generator per requested variant, immutable (flag true) first and mutable (flag false) last. All are built from the final options. The list is empty iff neither immutable nor mutable is on, so `shared` alone builds none. |
| `JavaGenerator.FirstInvalid` | contrib/libs/protoc/src/google/protobuf/compiler/java/generator.cc:133-137 | Validation succeeds iff every generator validates. A failure is the failure of one of the generators. |
| `JavaGenerator.ValidateAll` | contrib/libs/protoc/src/google/protobuf/compiler/java/generator.cc:133-137 | The loop that stops at the first failing `Validate` returns exactly `FirstInvalid`. |
| `JavaGenerator.PackageDir` | contrib/libs/protoc/src/google/protobuf/compiler/java/generator.cc:140 | The package directory depends only on the generator's Java package: generators in the same package share it. |
| `JavaGenerator.JavaFilename` | contrib/libs/protoc/src/google/protobuf/compiler/java/generator.cc:142-143 | The primary path is the package directory followed by the class name, with the suffix `.java`. |
| `JavaGenerator.MetaFilename` | contrib/libs/protoc/src/google/protobuf/compiler/java/generator.cc:145 | The annotation path is the primary path with the suffix `.pb.meta`. |
| `JavaGenerator.EmittedBy` | contrib/libs/protoc/src/google/protobuf/compiler/java/generator.cc:140-170 | For one generator, the recorded files are the primary path `package dir + class name + ".java"` followed exactly by the sibling files. The primary sink is opened first and holds the generator's output. With annotations on, the recorded annotations are the `.pb.meta` path followed exactly by the siblings' annotations, and the `.pb.meta` sink, holding the collected annotations, is opened second. With annotations off, the annotations are exactly the siblings' and only one sink is opened. |
| `JavaGenerator.GenerateFile` | contrib/libs/protoc/src/google/protobuf/compiler/java/generator.cc:140-170 | One pass of the generation loop records the paths of `EmittedBy` and appends exactly its sinks to the context. |
| `JavaGenerator.EmittedByAll` | contrib/libs/protoc/src/google/protobuf/compiler/java/generator.cc:139-171 | The loop opens one sink per generator, two with annotations on. It records at least one file per generator. |
| `JavaGenerator.GenerateAll` | contrib/libs/protoc/src/google/protobuf/compiler/java/generator.cc:139-171 | The loop over all generators records `EmittedByAll`'s paths and appends exactly its sinks, in generator order. |
| `JavaGenerator.ManifestLines` | contrib/libs/protoc/src/google/protobuf/compiler/java/generator.cc:183-185 | A path list has exactly one line per entry, and line i is entry i followed by a newline. |
| `JavaGenerator.Manifest` | contrib/libs/protoc/src/google/protobuf/compiler/java/generator.cc:177-198 | A path list is opened iff its path is non-empty. It is then exactly one sink at that path whose content is `ManifestLines` of the entries (one line per entry, entry i plus a newline). |
| `JavaGenerator.WriteFileList` | contrib/libs/protoc/src/google/protobuf/compiler/java/generator.cc:177-198 | Writing a path list appends exactly `Manifest`'s sinks to the context: nothing for an empty path, otherwise one sink filled line by line. |
| `JavaGenerator.Planned` | contrib/libs/protoc/src/google/protobuf/compiler/java/generator.cc:121-200 | Once the options are known, the run succeeds iff every generator validates; a run that fails validation records no path and opens no sink. |
| `JavaGenerator.RunPlan` | contrib/libs/protoc/src/google/protobuf/compiler/java/generator.cc:121-200 | Building, validating, generating and writing the path lists gives exactly `Planned`'s outcome and lists, and appends exactly its sinks to the context. |
| `JavaGenerator.Generation` | contrib/libs/protoc/src/google/protobuf/compiler/java/generator.cc:65-201 | A failed run, whether it fails in the option pass or in validation, records no path and opens no sink. |
| `JavaGenerator.Generate` | contrib/libs/protoc/src/google/protobuf/compiler/java/generator.cc:65-201 | The driver's outcome and recorded lists are those of `Generation`. The context gains exactly `Generation`'s sinks, in order, and nothing on failure. |
| `GeneratorProperties.UnknownOptionAborts` | contrib/libs/protoc/src/google/protobuf/compiler/java/generator.cc:78-98 | The first unknown key ends the run with "Unknown generator option: " + key, with nothing recorded and nothing opened. |
| `GeneratorProperties.LiteWithMutableAborts` | contrib/libs/protoc/src/google/protobuf/compiler/java/generator.cc:101-104 | `lite` and `mutable` together, with all keys known, end the run with the fixed message, with nothing recorded and nothing opened. |
| `GeneratorProperties.NoOptionsUsesImmutableGenerator` | contrib/libs/protoc/src/google/protobuf/compiler/java/generator.cc:106-126 | Without options, the only generator is the immutable one. It is built from options with immutable and shared on. |
| `GeneratorProperties.SharedAloneRecordsNothing` | contrib/libs/protoc/src/google/protobuf/compiler/java/generator.cc:106-131 | With `shared` but neither `immutable` nor `mutable`, the run succeeds and records no Java path. It opens only the path lists. |
| `GeneratorProperties.FirstInvalidAt` | contrib/libs/protoc/src/google/protobuf/compiler/java/generator.cc:133-137 | Validation reports the failure of the first generator that fails. |
| `GeneratorProperties.InvalidGeneratorAborts` | contrib/libs/protoc/src/google/protobuf/compiler/java/generator.cc:133-137 | A failing `Validate` ends the run with its message, with no path recorded and no sink opened, even when earlier generators validated. |
| `GeneratorProperties.RunSucceeds` | contrib/libs/protoc/src/google/protobuf/compiler/java/generator.cc:65-201 | A run succeeds iff the option pass succeeds and every generator it asks for validates. A successful run records the generation loop's paths and opens the loop's sinks, then the file list, then the annotation list, the lists built from exactly the recorded paths. |
| `GeneratorProperties.EmittedByAllAppend` | contrib/libs/protoc/src/google/protobuf/compiler/java/generator.cc:139-171 | Running the loop over two lists of generators gives the first list's contribution followed by the second's. |
| `GeneratorProperties.EmissionOrder` | contrib/libs/protoc/src/google/protobuf/compiler/java/generator.cc:139-171 | Generator k's paths and sinks come after those of every earlier generator and before those of every later one. Its Java path is recorded before its sibling paths. |
| `GeneratorProperties.SinkPositions` | contrib/libs/protoc/src/google/protobuf/compiler/java/generator.cc:150-170 | With annotations on, generator k's primary sink is the (2k)-th opened and its `.pb.meta` sink the (2k+1)-th. With them off, its primary sink is the k-th opened. |
| `GeneratorProperties.NoAnnotationsWithoutAnnotateCode` | contrib/libs/protoc/src/google/protobuf/compiler/java/generator.cc:145-148 | Without `annotate_code` the driver records no annotation path of its own. When the siblings report none, the annotation list is empty. |
| `GeneratorProperties.ManifestContents` | contrib/libs/protoc/src/google/protobuf/compiler/java/generator.cc:177-198 | A path list with a non-empty path is exactly one sink at that path, with one line per entry, line i being entry i followed by a newline. |
| `GeneratorProperties.TwoFileManifest` | contrib/libs/protoc/src/google/protobuf/compiler/java/generator.cc:177-186 | For the files `A.java` and `B.java`, the list at `manifest.txt` holds exactly `A.java\n` then `B.java\n`. |

## Left out

- `ParseGeneratorParameter` (line 73) is not part of this model. The model takes its result, the list of `(key, value)` pairs, as input.
- The `FileGenerator` class and `JavaPackageToDir` are not part of this model. Their `Validate`, `java_package`, `classname`, `Generate` and `GenerateSiblings` calls, and `JavaPackageToDir`, are fields of `Collaborators`. The model knows nothing of them beyond their results.
- `io::Printer`, `AnnotationProtoCollector` and `GeneratedCodeInfo` serialization are not modelled byte by byte. A generator's output and its serialized annotations are opaque sequences of strings, and the model appends them to their sinks.
- The sinks that `GenerateSiblings` opens itself are not in the context's log. The log holds only the sinks the driver opens.
- Stream lifetime (closing and flushing through `unique_ptr`, `file_generators.clear()`) is not modelled. A sink is simply "opened".
- `GetSupportedFeatures` (lines 61-63) returns a constant and has nothing to verify.
- `opensource_runtime_` is set on the generator object outside this file. It is a parameter of the model.
- `options.h` is not part of this model. The model uses only the record fields the driver touches, and it assumes they start false or empty.
- Generation errors are not modelled: the calls `Generate` (line 160) and `GenerateSiblings` (line 163) return nothing.
- Without `annotate_code` the driver adds no `.pb.meta` path, but the siblings may still report annotation paths (`NoAnnotationsWithoutAnnotateCode`).
- The mutable generator is built with the flag `false` (line 130), as the code does; the model does not interpret that flag further.
