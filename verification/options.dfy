/** The option pass of the Java code generator driver: the ordered
    (key, value) pairs are folded into an options record, unknown keys stop
    the fold, `lite` together with `mutable` is refused, and when no variant
    was asked for the immutable and shared variants are switched on. */
module JavaOptions {

  datatype Result<T> = Ok(value: T) | Err(error: string)

  /** One (key, value) pair as the parameter parser hands it over. */
  datatype RawOption = RawOption(key: string, value: string)

  /** The fields of the options record that the driver reads or writes. */
  datatype Options = Options(
    generateImmutableCode: bool,
    generateMutableCode: bool,
    generateSharedCode: bool,
    enforceLite: bool,
    annotateCode: bool,
    outputListFile: string,
    annotationListFile: string,
    opensourceRuntime: bool)

  /** The exact set of keys the driver accepts. */
  const KnownKeys: set<string> :=
    {"output_list_file", "immutable", "mutable", "shared", "lite", "annotate_code", "annotation_list_file"}

  /** The keys that switch a flag on (the other two carry a path). */
  const FlagKeys: set<string> := {"immutable", "mutable", "shared", "lite", "annotate_code"}

  const LiteWithMutableMessage := "lite runtime generator option cannot be used with mutable API."

  function UnknownOptionMessage(key: string): string {
    "Unknown generator option: " + key
  }

  /** The record before any option is applied: every flag off, both list
      paths empty, and the open-source flag taken from the generator. */
  function InitialOptions(opensourceRuntime: bool): (r: Options)
    ensures !r.generateImmutableCode && !r.generateMutableCode && !r.generateSharedCode
    ensures !r.enforceLite && !r.annotateCode
    ensures r.outputListFile == "" && r.annotationListFile == ""
    ensures r.opensourceRuntime == opensourceRuntime
  {
    Options(false, false, false, false, false, "", "", opensourceRuntime)
  }

  predicate AllKnown(opts: seq<RawOption>) {
    forall i :: 0 <= i < |opts| ==> opts[i].key in KnownKeys
  }

  predicate HasKey(opts: seq<RawOption>, key: string) {
    exists i :: 0 <= i < |opts| && opts[i].key == key
  }

  /** `v` is what a last-wins reading of `key` in `opts` gives: the value of
      the last occurrence of `key`, or `default` when `key` never occurs. */
  ghost predicate LastWins(opts: seq<RawOption>, key: string, default: string, v: string) {
    || ((forall i :: 0 <= i < |opts| ==> opts[i].key != key) && v == default)
    || (exists i :: 0 <= i < |opts| && opts[i].key == key && opts[i].value == v &&
                   forall j :: i < j < |opts| ==> opts[j].key != key)
  }

  /** Applies one option to the record; an unknown key is an error naming it.
      A flag key switches its flag on, a path key replaces its path, and no
      key touches any other field. */
  function ApplyOption(o: Options, option: RawOption): (r: Result<Options>)
    ensures r.Err? <==> option.key !in KnownKeys
    ensures r.Err? ==> r.error == UnknownOptionMessage(option.key)
    ensures r.Ok? ==>
      && r.value.generateImmutableCode == (o.generateImmutableCode || option.key == "immutable")
      && r.value.generateMutableCode == (o.generateMutableCode || option.key == "mutable")
      && r.value.generateSharedCode == (o.generateSharedCode || option.key == "shared")
      && r.value.enforceLite == (o.enforceLite || option.key == "lite")
      && r.value.annotateCode == (o.annotateCode || option.key == "annotate_code")
      && r.value.outputListFile == (if option.key == "output_list_file" then option.value else o.outputListFile)
      && r.value.annotationListFile == (if option.key == "annotation_list_file" then option.value else o.annotationListFile)
      && r.value.opensourceRuntime == o.opensourceRuntime
  {
    if option.key == "output_list_file" then Ok(o.(outputListFile := option.value))
    else if option.key == "immutable" then Ok(o.(generateImmutableCode := true))
    else if option.key == "mutable" then Ok(o.(generateMutableCode := true))
    else if option.key == "shared" then Ok(o.(generateSharedCode := true))
    else if option.key == "lite" then Ok(o.(enforceLite := true))
    else if option.key == "annotate_code" then Ok(o.(annotateCode := true))
    else if option.key == "annotation_list_file" then Ok(o.(annotationListFile := option.value))
    else Err(UnknownOptionMessage(option.key))
  }

  /** Applies the options in order, stopping at the first unknown key. The
      last option is applied last, so the fold of a prefix is what a loop has
      computed after that many steps. */
  function FoldOptions(o: Options, opts: seq<RawOption>): (r: Result<Options>)
    ensures r.Ok? <==> AllKnown(opts)
    ensures r.Ok? ==> r.value.opensourceRuntime == o.opensourceRuntime
    decreases |opts|
  {
    if opts == [] then Ok(o)
    else
      match FoldOptions(o, opts[..|opts| - 1])
      case Err(e) => Err(e)
      case Ok(p) => ApplyOption(p, opts[|opts| - 1])
  }

  /** Switches on the immutable and shared variants when no variant flag is set. */
  function WithDefaultVariants(o: Options): (r: Options)
    ensures r.generateImmutableCode || r.generateMutableCode || r.generateSharedCode
    ensures var none := !o.generateImmutableCode && !o.generateMutableCode && !o.generateSharedCode;
      && r.generateImmutableCode == (o.generateImmutableCode || none)
      && r.generateSharedCode == (o.generateSharedCode || none)
    ensures r.generateMutableCode == o.generateMutableCode
    ensures r.(generateImmutableCode := o.generateImmutableCode, generateSharedCode := o.generateSharedCode) == o
    ensures o.generateImmutableCode || o.generateMutableCode || o.generateSharedCode ==> r == o
  {
    if !o.generateImmutableCode && !o.generateMutableCode && !o.generateSharedCode
    then o.(generateImmutableCode := true, generateSharedCode := true)
    else o
  }

  /** The whole option pass: the fold, then the lite/mutable check, then the
      default. A successful result always asks for some variant and never
      combines lite with mutable. */
  function OptionsFrom(opts: seq<RawOption>, opensourceRuntime: bool): (r: Result<Options>)
    ensures r.Ok? ==> r.value.generateImmutableCode || r.value.generateMutableCode || r.value.generateSharedCode
    ensures r.Ok? ==> !(r.value.enforceLite && r.value.generateMutableCode)
    ensures r.Ok? ==> r.value.opensourceRuntime == opensourceRuntime
  {
    match FoldOptions(InitialOptions(opensourceRuntime), opts)
    case Err(e) => Err(e)
    case Ok(o) =>
      if o.enforceLite && o.generateMutableCode then Err(LiteWithMutableMessage)
      else Ok(WithDefaultVariants(o))
  }

  /** The option pass as the driver runs it: a loop that updates the record
      in place and returns at the first unknown key. */
  method ParseOptions(opts: seq<RawOption>, opensourceRuntime: bool) returns (r: Result<Options>)
    ensures r == OptionsFrom(opts, opensourceRuntime)
  {
    var fileOptions := InitialOptions(opensourceRuntime);
    for i := 0 to |opts|
      invariant FoldOptions(InitialOptions(opensourceRuntime), opts[..i]) == Ok(fileOptions)
    {
      var option := opts[i];
      assert opts[..i + 1][..i] == opts[..i];
      if option.key == "output_list_file" {
        fileOptions := fileOptions.(outputListFile := option.value);
      } else if option.key == "immutable" {
        fileOptions := fileOptions.(generateImmutableCode := true);
      } else if option.key == "mutable" {
        fileOptions := fileOptions.(generateMutableCode := true);
      } else if option.key == "shared" {
        fileOptions := fileOptions.(generateSharedCode := true);
      } else if option.key == "lite" {
        fileOptions := fileOptions.(enforceLite := true);
      } else if option.key == "annotate_code" {
        fileOptions := fileOptions.(annotateCode := true);
      } else if option.key == "annotation_list_file" {
        fileOptions := fileOptions.(annotationListFile := option.value);
      } else {
        FoldStopsAtUnknown(InitialOptions(opensourceRuntime), opts, i);
        return Err(UnknownOptionMessage(option.key));
      }
    }
    assert opts[..|opts|] == opts;
    if fileOptions.enforceLite && fileOptions.generateMutableCode {
      return Err(LiteWithMutableMessage);
    }
    if !fileOptions.generateImmutableCode && !fileOptions.generateMutableCode && !fileOptions.generateSharedCode {
      fileOptions := fileOptions.(generateImmutableCode := true, generateSharedCode := true);
    }
    r := Ok(fileOptions);
  }

  /** Once the fold reaches an unknown key, nothing after it matters: the
      error names that key. */
  lemma {:induction false} FoldStopsAtUnknown(o: Options, opts: seq<RawOption>, i: nat)
    requires i < |opts| && FoldOptions(o, opts[..i]).Ok? && opts[i].key !in KnownKeys
    ensures FoldOptions(o, opts) == Err(UnknownOptionMessage(opts[i].key))
    decreases |opts|
  {
    var n := |opts| - 1;
    if n == i {
      assert opts[..n] == opts[..i];
    } else {
      assert opts[..n][..i] == opts[..i];
      FoldStopsAtUnknown(o, opts[..n], i);
    }
  }

  /** The option pass fails at the FIRST unknown key, with a message naming
      it, whatever follows (a later lite/mutable clash included). */
  lemma FirstUnknownOptionRejected(opts: seq<RawOption>, opensourceRuntime: bool, i: nat)
    requires i < |opts| && opts[i].key !in KnownKeys
    requires forall j :: 0 <= j < i ==> opts[j].key in KnownKeys
    ensures OptionsFrom(opts, opensourceRuntime) == Err(UnknownOptionMessage(opts[i].key))
  {
    var init := InitialOptions(opensourceRuntime);
    assert AllKnown(opts[..i]);
    FoldStopsAtUnknown(init, opts, i);
  }

  lemma HasKeyAppend(opts: seq<RawOption>, x: RawOption, key: string)
    ensures HasKey(opts + [x], key) <==> HasKey(opts, key) || x.key == key
  {
    var ext := opts + [x];
    if HasKey(ext, key) && x.key != key {
      var i :| 0 <= i < |ext| && ext[i].key == key;
      assert i < |opts| && opts[i] == ext[i];
    }
    if HasKey(opts, key) {
      var i :| 0 <= i < |opts| && opts[i].key == key;
      assert ext[i] == opts[i];
    }
    if x.key == key {
      assert ext[|opts|] == x;
    }
  }

  lemma LastWinsAppend(opts: seq<RawOption>, x: RawOption, key: string, default: string, v: string)
    requires LastWins(opts, key, default, v)
    ensures LastWins(opts + [x], key, default, if x.key == key then x.value else v)
  {
    var ext := opts + [x];
    if x.key == key {
      assert ext[|opts|] == x;
    } else if forall i :: 0 <= i < |opts| ==> opts[i].key != key {
      forall i | 0 <= i < |ext| ensures ext[i].key != key {
        if i < |opts| { assert ext[i] == opts[i]; }
      }
    } else {
      var i :| 0 <= i < |opts| && opts[i].key == key && opts[i].value == v &&
               forall j :: i < j < |opts| ==> opts[j].key != key;
      assert ext[i] == opts[i];
      forall j | i < j < |ext| ensures ext[j].key != key {
        if j < |opts| { assert ext[j] == opts[j]; }
      }
    }
  }

  /** What the fold computes, described independently of the order in which it
      works: each flag is on iff it was on before or its key occurs; each path
      is the last value given for its key; the open-source flag is untouched. */
  ghost predicate Absorbs(o: Options, opts: seq<RawOption>, r: Options) {
    && (r.generateImmutableCode <==> o.generateImmutableCode || HasKey(opts, "immutable"))
    && (r.generateMutableCode <==> o.generateMutableCode || HasKey(opts, "mutable"))
    && (r.generateSharedCode <==> o.generateSharedCode || HasKey(opts, "shared"))
    && (r.enforceLite <==> o.enforceLite || HasKey(opts, "lite"))
    && (r.annotateCode <==> o.annotateCode || HasKey(opts, "annotate_code"))
    && LastWins(opts, "output_list_file", o.outputListFile, r.outputListFile)
    && LastWins(opts, "annotation_list_file", o.annotationListFile, r.annotationListFile)
    && r.opensourceRuntime == o.opensourceRuntime
  }

  lemma {:induction false} FoldOptionsMeaning(o: Options, opts: seq<RawOption>)
    requires AllKnown(opts)
    ensures FoldOptions(o, opts).Ok? && Absorbs(o, opts, FoldOptions(o, opts).value)
    decreases |opts|
  {
    if opts == [] {
      assert LastWins(opts, "output_list_file", o.outputListFile, o.outputListFile);
    } else {
      var n := |opts| - 1;
      var prefix, x := opts[..n], opts[n];
      assert opts == prefix + [x];
      assert AllKnown(prefix);
      FoldOptionsMeaning(o, prefix);
      var p := FoldOptions(o, prefix).value;
      HasKeyAppend(prefix, x, "immutable");
      HasKeyAppend(prefix, x, "mutable");
      HasKeyAppend(prefix, x, "shared");
      HasKeyAppend(prefix, x, "lite");
      HasKeyAppend(prefix, x, "annotate_code");
      LastWinsAppend(prefix, x, "output_list_file", o.outputListFile, p.outputListFile);
      LastWinsAppend(prefix, x, "annotation_list_file", o.annotationListFile, p.annotationListFile);
    }
  }

  /** The option pass on options whose keys are all known: it fails exactly
      when both `lite` and `mutable` occur, in any order, and otherwise gives
      the flags the keys ask for (immutable and shared when no variant key
      occurs), the last value of each path key, and the generator's
      open-source flag. */
  lemma KnownOptionsMeaning(opts: seq<RawOption>, opensourceRuntime: bool)
    requires AllKnown(opts)
    ensures OptionsFrom(opts, opensourceRuntime).Err? <==> HasKey(opts, "lite") && HasKey(opts, "mutable")
    ensures OptionsFrom(opts, opensourceRuntime).Err? ==>
      OptionsFrom(opts, opensourceRuntime).error == LiteWithMutableMessage
    ensures OptionsFrom(opts, opensourceRuntime).Ok? ==>
      var r := OptionsFrom(opts, opensourceRuntime).value;
      var anyVariant := HasKey(opts, "immutable") || HasKey(opts, "mutable") || HasKey(opts, "shared");
      && (r.generateImmutableCode <==> HasKey(opts, "immutable") || !anyVariant)
      && (r.generateMutableCode <==> HasKey(opts, "mutable"))
      && (r.generateSharedCode <==> HasKey(opts, "shared") || !anyVariant)
      && (r.enforceLite <==> HasKey(opts, "lite"))
      && (r.annotateCode <==> HasKey(opts, "annotate_code"))
      && LastWins(opts, "output_list_file", "", r.outputListFile)
      && LastWins(opts, "annotation_list_file", "", r.annotationListFile)
      && r.opensourceRuntime == opensourceRuntime
  {
    FoldOptionsMeaning(InitialOptions(opensourceRuntime), opts);
  }

  /** With no options at all the driver asks for exactly the immutable and
      shared variants. */
  lemma NoOptionsDefaults(opensourceRuntime: bool)
    ensures OptionsFrom([], opensourceRuntime) ==
      Ok(Options(true, false, true, false, false, "", "", opensourceRuntime))
  {
  }

  /** Repeating a flag key that already occurred changes nothing. */
  lemma RepeatedFlagIgnored(opts: seq<RawOption>, opensourceRuntime: bool, x: RawOption)
    requires x.key in FlagKeys && HasKey(opts, x.key)
    ensures OptionsFrom(opts + [x], opensourceRuntime) == OptionsFrom(opts, opensourceRuntime)
  {
    var init := InitialOptions(opensourceRuntime);
    var ext := opts + [x];
    assert ext[..|ext| - 1] == opts;
    if AllKnown(opts) {
      FoldOptionsMeaning(init, opts);
    }
  }

  /** A later value of a path key replaces every earlier one. */
  lemma PathOptionLastWins(opts: seq<RawOption>, opensourceRuntime: bool, x: RawOption)
    requires x.key == "output_list_file" || x.key == "annotation_list_file"
    requires OptionsFrom(opts + [x], opensourceRuntime).Ok?
    ensures x.key == "output_list_file" ==> OptionsFrom(opts + [x], opensourceRuntime).value.outputListFile == x.value
    ensures x.key == "annotation_list_file" ==> OptionsFrom(opts + [x], opensourceRuntime).value.annotationListFile == x.value
  {
    var ext := opts + [x];
    assert ext[..|ext| - 1] == opts;
  }
}
