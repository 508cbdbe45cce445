/**
 * The names the worker derives for each input object: the local file names,
 * the local paths inside the job's processing folder and the storage key of
 * the converted output.
 */
module Naming {
  import opened Paths

  /** The extension of every converted file. */
  const OutputExtension := ".ome.tif"

  /** `path.basename(key)`. */
  function InputFileName(key: string): string {
    Basename(key)
  }

  /** `path.basename(key, path.extname(key)) + '.ome.tif'`. */
  function OutputFileName(key: string): string {
    Stem(key) + OutputExtension
  }

  /** `${outputPrefix}${id}/${outputFileName}`. */
  function OutputKey(outputPrefix: string, id: string, key: string): string {
    outputPrefix + id + "/" + OutputFileName(key)
  }

  /** `path.resolve(uploadsFolder, id)` from the working directory `cwd`. */
  function ProcessingFolder(cwd: Path, uploadsFolder: string, id: string): Path {
    Resolve2(cwd, uploadsFolder, id)
  }

  /** `path.resolve(processingFolder, inputFileName)`. */
  function InputFilePath(folder: Path, key: string): Path {
    Resolve(folder, InputFileName(key))
  }

  /**
   * The converted file's local path: the output file name inside the
   * processing folder. `OutputFilePathIsResolved` shows that this is
   * `path.resolve(processingFolder, outputFileName)`.
   */
  function OutputFilePath(folder: Path, key: string): Path {
    folder + [OutputFileName(key)]
  }

  /**
   * The output name is the input's base name with its last extension (and
   * only that one) replaced by ".ome.tif"; it is a plain file name.
   */
  lemma OutputFileNameReplacesExtension(key: string)
    ensures var e := Extname(key);
      && Basename(key) == Stem(key) + e
      && OutputFileName(key) == Stem(key) + OutputExtension
      && (e == [] || (e[0] == '.' && '.' !in e[1..]))
      && IsPlainName(OutputFileName(key))
  {
    var b := Basename(key);
    ExtnameSpec(key);
    StemSpec(key);
    assert Stem(key) == b[..|Stem(key)|];
    assert '/' !in Stem(key) by {
      forall i | 0 <= i < |Stem(key)| ensures Stem(key)[i] != '/' {
        assert Stem(key)[i] == b[i];
      }
    }
    NoSlashJoin(Stem(key), OutputExtension);
  }

  lemma NoSlashJoin(a: string, b: string)
    requires '/' !in a && '/' !in b
    ensures '/' !in a + b
  {
  }

  /** The output key lies under `outputPrefix + id + "/"` and its base name is the output file name. */
  lemma OutputKeyBasename(outputPrefix: string, id: string, key: string)
    ensures Basename(OutputKey(outputPrefix, id, key)) == OutputFileName(key)
  {
    OutputFileNameReplacesExtension(key);
    BasenameOfChild(outputPrefix + id, OutputFileName(key), 0);
    assert OutputKey(outputPrefix, id, key) == (outputPrefix + id) + "/" + OutputFileName(key) + seq(0, _ => '/');
  }

  /**
   * For a job id that is a plain name, the processing folder is the uploads
   * folder's child `id`; the converted file is always directly inside it, and
   * the downloaded file is too unless the key's base name is "", "." or "..".
   */
  lemma LocalPathsInsideFolder(cwd: Path, uploadsFolder: string, id: string, key: string)
    requires IsPlainName(id)
    ensures var folder := ProcessingFolder(cwd, uploadsFolder, id);
      && folder == Resolve(cwd, uploadsFolder) + [id]
      && Resolve(folder, OutputFileName(key)) == folder + [OutputFileName(key)]
      && (InputFilePath(folder, key) == folder + [InputFileName(key)] <==> IsPlainName(InputFileName(key)))
  {
    var folder := ProcessingFolder(cwd, uploadsFolder, id);
    ResolvePlainName(Resolve(cwd, uploadsFolder), id);
    OutputFileNameReplacesExtension(key);
    ResolvePlainName(folder, OutputFileName(key));
    ResolvePlainName(folder, InputFileName(key));
    var n := InputFileName(key);
    if !IsPlainName(n) {
      assert |folder + [n]| != |folder| && |folder + [n]| != |folder| - 1;
    }
  }

  /** The output path is what `path.resolve` makes of the folder and the output file name. */
  lemma OutputFilePathIsResolved(folder: Path, key: string)
    ensures OutputFilePath(folder, key) == Resolve(folder, OutputFileName(key))
  {
    OutputFileNameReplacesExtension(key);
    ResolvePlainName(folder, OutputFileName(key));
  }

  /** "dir/stem.ext" becomes "stem.ome.tif" (so "abc/sample.nd2" becomes "sample.ome.tif"). */
  lemma OutputFileNameOfChild(dir: string, stem: string, ext: string)
    requires stem != [] && '/' !in stem && '/' !in ext && '.' !in ext
    requires stem + "." + ext != ".."
    ensures OutputFileName(dir + "/" + stem + "." + ext) == stem + OutputExtension
  {
    ExtnameOfChild(dir, stem, ext);
  }
}
