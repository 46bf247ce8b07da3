/** The export entry points: generate the code, give the file name the generator's ending
    and hand the text to the file write (the write itself, the clipboard and the notebook
    execution are outside the model; the methods return what would be written). */
module Export {
  import opened Wrappers
  import opened Strings
  import opened Layers
  import ScriptGeneratorBase
  import Notebook

  /** The file name with the ending appended unless it already ends with it. */
  function WithEnding(filename: string, ending: string): (r: string)
    ensures EndsWith(r, ending)
    ensures EndsWith(filename, ending) ==> r == filename
    ensures !EndsWith(filename, ending) ==> r == filename + ending
  {
    if EndsWith(filename, ending) then filename
    else
      EndsWithConcat(filename, ending);
      filename + ending
  }

  /** Normalising twice is normalising once. */
  lemma WithEndingIdempotent(filename: string, ending: string)
    ensures WithEnding(WithEnding(filename, ending), ending) == WithEnding(filename, ending)
  {
  }

  /** The ending is appended at most once: the normalised name is the given name, possibly
      followed by the ending. */
  lemma WithEndingAppendsOnce(filename: string, ending: string)
    ensures StartsWith(WithEnding(filename, ending), filename)
    ensures |WithEnding(filename, ending)| <= |filename| + |ending|
  {
    StartsWithConcat(filename, ending);
    if EndsWith(filename, ending) {
      assert filename[..|filename|] == filename;
    }
  }

  /** `export_jython_code`: the text written is the Jython exporter's output and the file
      name returned ends with ".py". */
  method ExportJythonCode(cat: Catalogue, version: string, layers: seq<Layer>, filename: string)
    returns (code: string, path: string)
    ensures Some(code) == ScriptGeneratorBase.GenerateSpec(ScriptGeneratorBase.JythonExport, cat, version, layers)
    ensures path == WithEnding(filename, ".py")
  {
    var g := ScriptGeneratorBase.JythonExport;
    var generated := ScriptGeneratorBase.Generate(g, cat, version, layers);
    ScriptGeneratorBase.ExportersNeverFail(g, cat, version, layers);
    code := generated.value;
    path := filename;
    if !EndsWith(path, ScriptGeneratorBase.FileEnding(g)) {
      path := path + ScriptGeneratorBase.FileEnding(g);
    }
  }

  /** `export_jython_code_to_clipboard`: the text copied is the Jython exporter's output. */
  method ExportJythonCodeToClipboard(cat: Catalogue, version: string, layers: seq<Layer>)
    returns (code: string)
    ensures Some(code) == ScriptGeneratorBase.GenerateSpec(ScriptGeneratorBase.JythonExport, cat, version, layers)
  {
    var g := ScriptGeneratorBase.JythonExport;
    var generated := ScriptGeneratorBase.Generate(g, cat, version, layers);
    ScriptGeneratorBase.ExportersNeverFail(g, cat, version, layers);
    code := generated.value;
  }

  /** What exporting a notebook comes to: the file written with its text, nothing written,
      or an exception raised. */
  datatype Outcome = Written(path: string, code: string) | NotWritten | Raised

  /** `export_notebook` as written: the name's ending is checked before the None check, so
      a missing name raises. */
  function ExportNotebookAsWritten(cat: Catalogue, version: string, layers: seq<Layer>, filename: Option<string>): Outcome
  {
    var generated := ScriptGeneratorBase.GenerateSpec(ScriptGeneratorBase.NotebookExport, cat, version, layers);
    if generated.None? then Raised
    else if filename.None? then Raised
    else Written(WithEnding(filename.value, Notebook.FileEnding()), generated.value)
  }

  /** As written, a missing name raises instead of reaching the guard meant for it. */
  lemma AsWrittenMissingNameRaises(cat: Catalogue, version: string, layers: seq<Layer>)
    ensures ExportNotebookAsWritten(cat, version, layers, None) == Raised
  {
  }

  /** As written, the branch that skips the write is never taken. */
  lemma AsWrittenGuardIsDead(cat: Catalogue, version: string, layers: seq<Layer>, filename: Option<string>)
    ensures ExportNotebookAsWritten(cat, version, layers, filename) != NotWritten
  {
  }

  /** `export_notebook` with the None check first: a missing name writes nothing. */
  function ExportNotebookSpec(cat: Catalogue, version: string, layers: seq<Layer>, filename: Option<string>): Outcome
  {
    var generated := ScriptGeneratorBase.GenerateSpec(ScriptGeneratorBase.NotebookExport, cat, version, layers);
    if generated.None? then Raised
    else if filename.None? then NotWritten
    else Written(WithEnding(filename.value, Notebook.FileEnding()), generated.value)
  }

  method ExportNotebook(cat: Catalogue, version: string, layers: seq<Layer>, filename: Option<string>)
    returns (r: Outcome)
    ensures r == ExportNotebookSpec(cat, version, layers, filename)
  {
    var g := ScriptGeneratorBase.NotebookExport;
    var generated := ScriptGeneratorBase.Generate(g, cat, version, layers);
    ScriptGeneratorBase.ExportersNeverFail(g, cat, version, layers);
    if filename.None? {
      r := NotWritten;
    } else {
      var ending := ScriptGeneratorBase.FileEnding(g);
      assert ending == Notebook.FileEnding();
      var path := filename.value;
      if !EndsWith(path, ending) {
        path := path + ending;
      }
      r := Written(path, generated.value);
    }
  }

  /** The corrected export never raises, skips exactly a missing name, and writes, under a
      name ending with ".ipynb", a text that opens the document and its cell list and ends
      with the format version lines. */
  lemma ExportNotebookOutcome(cat: Catalogue, version: string, layers: seq<Layer>, filename: Option<string>)
    ensures ExportNotebookSpec(cat, version, layers, filename) != Raised
    ensures ExportNotebookSpec(cat, version, layers, filename) == NotWritten <==> filename.None?
    ensures filename.Some? ==>
      var r := ExportNotebookSpec(cat, version, layers, filename);
      r.Written? && EndsWith(r.path, ".ipynb") && StartsWith(r.code, Notebook.Opening())
      && EndsWith(r.code, Notebook.NbFormat())
  {
    ScriptGeneratorBase.NotebookWellFormed(cat, version, layers);
  }
}
