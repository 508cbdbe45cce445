/**
 * The conversion invoker: `convert(options)` runs Bio-Formats' `bfconvert`
 * from the `bftools` directory beside the server code, with a fixed
 * argument layout and the process environment plus a memory ceiling.
 * Running the process is an effect of the worker; this module builds what
 * is passed to it.
 */
module Convert {
  import opened Common
  import opened Paths

  /** The options object; the tile and pyramid settings arrive as the text of the job's form fields. */
  datatype Options = Options(
    inputFile: string,
    outputFile: string,
    tileSizeX: string,
    tileSizeY: string,
    pyramidResolutions: string,
    pyramidScale: string)

  /** A process environment. */
  type Env = map<string, string>

  /** What `execFileSync` is handed: the program, its arguments and its environment. */
  datatype Invocation = Invocation(executable: Path, argv: seq<string>, env: Env)

  const MaxMemVar := "BF_MAX_MEM"
  const MaxMem := "4g"

  /** The converter's file name: "bfconvert", with ".bat" on win32 only. */
  function ScriptName(platform: string): string {
    "bfconvert" + if platform == "win32" then ".bat" else ""
  }

  /** The converter's path: the `bftools` directory beside the server code. */
  function Executable(platform: string, dirname: Path): Path {
    dirname + ["bftools", ScriptName(platform)]
  }

  /** The path is `path.resolve(__dirname, 'bftools', 'bfconvert' + ext)`. */
  lemma ExecutableIsResolved(platform: string, dirname: Path)
    ensures Executable(platform, dirname) == Resolve(Resolve(dirname, "bftools"), ScriptName(platform))
  {
    var name := ScriptName(platform);
    PlainNames(platform);
    ResolvePlainName(dirname, "bftools");
    ResolvePlainName(dirname + ["bftools"], name);
    assert dirname + ["bftools"] + [name] == dirname + ["bftools", name];
  }

  /** The file name ends in ".bat" on win32 and has no extension elsewhere. */
  lemma ScriptNameByPlatform(platform: string)
    ensures platform == "win32" ==> ScriptName(platform) == "bfconvert.bat"
    ensures platform != "win32" ==> ScriptName(platform) == "bfconvert"
  {
  }

  lemma PlainNames(platform: string)
    ensures IsPlainName("bftools") && IsPlainName(ScriptName(platform))
  {
    assert "bftools"[0] == 'b';
  }

  /** The argument vector. */
  function Argv(o: Options): seq<string>
  {
    [ "-tilex", o.tileSizeX,
      "-tiley", o.tileSizeY,
      "-noflat",
      "-overwrite",
      "-bigtiff",
      "-pyramid-resolutions", o.pyramidResolutions,
      "-pyramid-scale", o.pyramidScale,
      o.inputFile,
      o.outputFile ]
  }

  /**
   * The vector has 13 entries; the three flags without a value are always
   * there, whatever the options; the input is the second-to-last entry and
   * the output the last.
   */
  lemma ArgvLayout(o: Options)
    ensures var a := Argv(o);
      && |a| == 13
      && a[4] == "-noflat" && a[5] == "-overwrite" && a[6] == "-bigtiff"
      && a[|a| - 2] == o.inputFile && a[|a| - 1] == o.outputFile
  {
  }

  /** Reads the options back from an argument vector of exactly this layout. */
  function ParseArgv(a: seq<string>): Option<Options> {
    if |a| == 13 && a[0] == "-tilex" && a[2] == "-tiley" && a[4] == "-noflat"
      && a[5] == "-overwrite" && a[6] == "-bigtiff" && a[7] == "-pyramid-resolutions"
      && a[9] == "-pyramid-scale"
    then Some(Options(a[11], a[12], a[1], a[3], a[8], a[10]))
    else None
  }

  /** The argument vector carries every option, each in its own place. */
  lemma ArgvRoundTrip(o: Options)
    ensures ParseArgv(Argv(o)) == Some(o)
  {
  }

  /** Every vector of this layout is the vector of exactly one options value. */
  lemma ArgvOfParsed(a: seq<string>, o: Options)
    requires ParseArgv(a) == Some(o)
    ensures Argv(o) == a
  {
    assert Argv(o) == a by {
      assert |Argv(o)| == |a|;
      forall i | 0 <= i < 13 ensures Argv(o)[i] == a[i] { }
    }
  }

  /** `{...process.env, BF_MAX_MEM: '4g'}`. */
  function ConverterEnv(env: Env): (e: Env)
    ensures e.Keys == env.Keys + {MaxMemVar}
    ensures e[MaxMemVar] == MaxMem
    ensures forall k :: k in env && k != MaxMemVar ==> e[k] == env[k]
  {
    env[MaxMemVar := MaxMem]
  }

  /** The whole call `convert(options)` makes. */
  function ConvertCall(o: Options, platform: string, dirname: Path, env: Env): Invocation {
    Invocation(Executable(platform, dirname), Argv(o), ConverterEnv(env))
  }

  /**
   * The invocation runs `bftools/bfconvert[.bat]` beside the code, carries
   * every option in its place and hands the converter a 4g memory ceiling.
   */
  lemma ConvertCallCarries(o: Options, platform: string, dirname: Path, env: Env)
    ensures var inv := ConvertCall(o, platform, dirname, env);
      && inv.executable == Resolve(Resolve(dirname, "bftools"), ScriptName(platform))
      && ParseArgv(inv.argv) == Some(o)
      && MaxMemVar in inv.env && inv.env[MaxMemVar] == MaxMem
  {
    ExecutableIsResolved(platform, dirname);
    ArgvRoundTrip(o);
  }
}
