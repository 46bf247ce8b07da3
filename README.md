# clEsperanto assistant: verified model of its code generation and data shaping

This project models the core of the napari assistant for clEsperanto (the
`napari_pyclesperanto_assistant` package and the older `pyclesperanto_assistant`). The model
covers the logic that does not depend on the GPU or the user interface:

- how the assistant turns its tracked result layers and their dialogs into a graph of steps;
- how the category widget maps GUI slots to the parameters of the chosen operation, assembles
  the call, relabels the slots and builds its signature;
- the script generators (Jython, Python, the newer Jython exporter, the Jupyter notebook, the
  `Pipeline`/`Step` emitter, and the older recursive follower walk), and the file-name rules
  of the exporters;
- the operation widgets of both packages: the arity cut, the contrast-range rules, the
  add-then-update life cycle of their result layer, and the cell layout of `table_to_widget`;
- reloading a saved workflow: root steps, keyword and source pairing, keyword defaults, the
  layer choices, and the worklist of `load_remaining_workflow`;
- the column naming of neighbourhood statistics and the column selection of advanced
  statistics;
- the requirements-line parser of `setup.py`.

Pure code is modelled by functions and lemmas. Code that updates state step by step is
modelled by methods with loops, proved equal to a reference function. Objects whose fields
change are classes: the assistant's tracked layers, the viewer and the dialogs of the
operation widgets, and the category widget's viewer. Images and measurements are opaque
values, such as layer identities, data handles and printed numbers. Operations are a
catalogue of parameter names and kinds.

One module per source file:

- `pipeline.dfy`, `script_generator_base.dfy`, `jython_generator.dfy`, `python_generator.dfy`:
  the generators under `_scriptgenerators/` and `_pipeline.py`;
- `export_jython.dfy`, `notebook.dfy`, `export.dfy`: the exporters under `_export/`;
- `script_walk.dfy`: the older package's Python script generator;
- `assistant.dfy`, `category_widget.dfy`: the assistant and the category widget;
- `operations.dfy`, `legacy_operations.dfy`: the operation widgets of the two packages;
- `workflow_io.dfy`: the workflow IO helpers;
- `neighborhood_statistics.dfy`, `advanced_statistics.dfy`: the statistics helpers;
- `requirements.dfy`: the requirements parser of `setup.py`;
- `layers.dfy`: the layer record shared by the generators;
- `strings.dfy`, `dicts.dfy`, `wrappers.dfy`: shared helpers for strings, insertion-ordered
  dictionaries and `Option`.

## Model

| member | source | states |
|---|---|---|
| Pipeline.ReprAll | napari_pyclesperanto_assistant/_pipeline.py:14 | one `repr` text per step argument, in order: numbers as their text, strings in Python's quoting (`StrRepr`) |
| Pipeline.QuoteOf | napari_pyclesperanto_assistant/_pipeline.py:14 | `repr` quotes a string with a single or a double quote |
| Pipeline.StrReprRoundTrip | napari_pyclesperanto_assistant/_pipeline.py:14 | a string's `repr` starts and ends with its quote, and unescaping the text between them gives the string back |
| Pipeline.EscapedRoundTrip | napari_pyclesperanto_assistant/_pipeline.py:14 | escaping inside either quote loses nothing: unescaping gives the string back |
| Pipeline.UnescapeChar | napari_pyclesperanto_assistant/_pipeline.py:14 | each escape (the quote, the backslash, `\t`, `\n`, `\r`, `\xNN`, or the character itself) reads back as the one character it stands for |
| Pipeline.StrReprPlain | napari_pyclesperanto_assistant/_pipeline.py:21 | a string of printable characters without a single quote or a backslash is written between single quotes as it is |
| Pipeline.StrReprSwitchesQuotes | napari_pyclesperanto_assistant/_pipeline.py:14 | a string holding a single quote and no double quote is put in double quotes |
| Pipeline.Group | napari_pyclesperanto_assistant/_pipeline.py:33-37 | a step yields three lines with `show` and two without |
| Pipeline.Groups | napari_pyclesperanto_assistant/_pipeline.py:33 | one group per step, numbered by the step's position |
| Pipeline.ToJythonLayout | napari_pyclesperanto_assistant/_pipeline.py:32-37 | `to_jython` yields 3 lines per step with `show` and 2 without; the group of step k starts with `operate(k)`, is followed by `show(k)` when showing, and ends with an empty line |
| Pipeline.ToJythonEmpty | napari_pyclesperanto_assistant/_pipeline.py:32-37 | an empty pipeline yields no line |
| Pipeline.OperateForm | napari_pyclesperanto_assistant/_pipeline.py:17 | `operate(n)` reads `image{n} = cle.{operation}(` … `)` |
| Pipeline.OperateInputArgs | napari_pyclesperanto_assistant/_pipeline.py:14-16 | with a truthy input the call arguments are `image{n-1}`, `cle.create_like(image{n-1})` and then the argument reprs; with a falsy input (None or 0) only the reprs |
| Pipeline.ShowArgsClims | napari_pyclesperanto_assistant/_pipeline.py:20-23 | `show` passes `image{n}`, the `repr` of "Result of " + the operation with every '_' turned into a space (no '_' is left), and the labels flag; the two display-range bounds follow exactly when `clims` is set |
| Pipeline.DemoLastStepUsesPreviousImage | napari_pyclesperanto_assistant/_pipeline.py:46-51 | the demo's last step names step 3 as input, yet its call reads `image4`, the image of the step just before it |
| Export.WithEnding | napari_pyclesperanto_assistant/_export/_export.py:9-10 | the resulting name ends with the generator's ending; a name that already ends with it is kept, any other gets it appended |
| Export.WithEndingIdempotent | napari_pyclesperanto_assistant/_export/_export.py:9-10 | normalising a name twice gives the same name as normalising it once |
| Export.WithEndingAppendsOnce | napari_pyclesperanto_assistant/_export/_export.py:9-10 | the normalised name starts with the given name and is at most one ending longer |
| Export.ExportJythonCode | napari_pyclesperanto_assistant/_export/_export.py:6-13 | the text written is the Jython exporter's script, with each result's block as `_jython.py` writes it (import line after the assignment), under the name with ".py" ensured |
| Export.ExportJythonCodeToClipboard | napari_pyclesperanto_assistant/_export/_export.py:16-21 | the text copied is the Jython exporter's script, with each result's block as `_jython.py` writes it |
| Export.AsWrittenMissingNameRaises | napari_pyclesperanto_assistant/_export/_export.py:28-31 | as written, a missing file name raises at the ending check, before the None guard |
| Export.AsWrittenGuardIsDead | napari_pyclesperanto_assistant/_export/_export.py:28-32 | as written, the branch that skips writing is never reached |
| Export.ExportNotebook | napari_pyclesperanto_assistant/_export/_export.py:24-39 | the corrected export (name guard first): a missing name writes nothing; otherwise the notebook text, whose code cells hold the Jython blocks as written, is written under the name with ".ipynb" ensured |
| Export.ExportNotebookOutcome | napari_pyclesperanto_assistant/_export/_export.py:24-39 | the corrected export never raises, writes nothing exactly for a missing name, and otherwise writes, under a name ending in ".ipynb", a text that starts with the document opening and ends with the nbformat lines |
| ExportJython.Resolve | napari_pyclesperanto_assistant/_export/_jython.py:44-68 | a dialog whose operation `cle` knows gives its parameter names and "cle." + its name with no import; otherwise the plain function's parameters and bare name, and the command starts with its import line |
| ExportJython.Execute | napari_pyclesperanto_assistant/_export/_jython.py:43-118 | the loop over the widgets within the parameter count yields the block as written: the layer comment, then, when an image argument exists, the buffer line and `image{n} = ` in front of the import line (if any) and the call; else the import line and the bare call |
| ExportJython.BlocksAgreeWithoutImport | napari_pyclesperanto_assistant/_export/_jython.py:101-116 | without an import line the block as written and the corrected block are the same text |
| ExportJython.CorrectionKeepsClePath | napari_pyclesperanto_assistant/_export/_jython.py:45-51 | for a dialog that resolves to a `cle` operation the correction changes nothing |
| ExportJython.AssignedImport | napari_pyclesperanto_assistant/_export/_jython.py:61-114 | as written, a block with an import line and an image argument contains `image{n} = from ` |
| ExportJython.AsWrittenAssignsImport | napari_pyclesperanto_assistant/_export/_jython.py:52-114 | as written, a plain function with an image argument yields a line assigning the import statement to `image{n}` |
| ExportJython.AsWrittenExample | napari_pyclesperanto_assistant/_export/_jython.py:52-114 | a concrete plain function taking one image: its block as written contains `image1 = from ` |
| ExportJython.ImportFirst | napari_pyclesperanto_assistant/_export/_jython.py:101-116 | the corrected block starts with the layer comment and the import line, then the buffer line when there is an image argument, and ends with the assigned call |
| ExportJython.CorrectedImportFirst | napari_pyclesperanto_assistant/_export/_jython.py:52-116 | with the correction, a plain function's block puts `from <module> import <name>` right after the layer comment, before the buffer line and the assigned call |
| ExportJython.NoImageNoBuffer | napari_pyclesperanto_assistant/_export/_jython.py:103-116 | as written, without an image argument the block is the layer comment, the import line if any, and the bare call, with no buffer line and no assignment |
| ExportJython.PullShape | napari_pyclesperanto_assistant/_export/_jython.py:120-150 | the display block shows `image{n}` under the layer's name, with `True` for labels and with the two contrast limits otherwise |
| Notebook.QuotesToApostrophes | napari_pyclesperanto_assistant/_export/_notebook.py:28 | a code cell's content keeps its length and holds no double quote afterwards |
| Notebook.CodeCell | napari_pyclesperanto_assistant/_export/_notebook.py:19-32 | every code cell ends with `},` |
| Notebook.MarkdownCell | napari_pyclesperanto_assistant/_export/_notebook.py:34-45 | every markdown cell ends with `},` |
| Notebook.MarkdownKeepsQuotes | napari_pyclesperanto_assistant/_export/_notebook.py:41 | a markdown cell does not escape '"': a one-line content stands in the cell as it is, right after the cell's head |
| Notebook.CodeCellTurnsQuotes | napari_pyclesperanto_assistant/_export/_notebook.py:28 | a code cell holds a one-line content with every '"' turned into "'", so no '"' of the content is left |
| Notebook.CellEnds | napari_pyclesperanto_assistant/_export/_notebook.py:42-44 | a cell's closing text ends with `},` |
| Notebook.Execute | napari_pyclesperanto_assistant/_export/_notebook.py:11-14 | a result layer becomes a markdown title cell followed by the Jython exporter's block, as written, as a code cell |
| Notebook.DropLast | napari_pyclesperanto_assistant/_export/_notebook.py:49 | `code[0:-1]`: the text without its last character, and the empty text for the empty text |
| Notebook.BreakLinesRoundTrip | napari_pyclesperanto_assistant/_export/_notebook.py:28 | turning each newline into a literal `\n` and a string break loses nothing: joining the breaks back gives the content again, for content without backslashes |
| Notebook.NewlinesInBreaksConcat | napari_pyclesperanto_assistant/_export/_notebook.py:28 | two texts whose newlines all sit inside string breaks keep that property when concatenated |
| Notebook.BreakLinesNoBareNewline | napari_pyclesperanto_assistant/_export/_notebook.py:28 | after the line breaking every newline sits inside a full string break, so no JSON string holds a bare newline |
| Notebook.HeaderShape | napari_pyclesperanto_assistant/_export/_notebook.py:5-6 | the header opens the document and its cell list and ends with `},` like every cell |
| Notebook.ExecuteCells | napari_pyclesperanto_assistant/_export/_notebook.py:11-14 | a result's cells start with the title cell and end with `},` |
| Notebook.DropLastCloses | napari_pyclesperanto_assistant/_export/_notebook.py:49 | cells ending in `},` lose only the comma |
| Notebook.DropLastKeepsPrefix | napari_pyclesperanto_assistant/_export/_notebook.py:49 | dropping the last character keeps every shorter prefix |
| Notebook.FinishClosesCells | napari_pyclesperanto_assistant/_export/_notebook.py:47-74 | the closing keeps the cells without their trailing comma, then closes the list and ends with the notebook format lines |
| Notebook.TitleDropsResultOf | napari_pyclesperanto_assistant/_export/_notebook.py:13 | the title of a layer named "Result of <op>" is "## <op>" |
| ScriptGeneratorBase.Parts | napari_pyclesperanto_assistant/_scriptgenerators/_ScriptGeneratorBase.py:11-12 | one code part per layer, numbered by the layer's position |
| ScriptGeneratorBase.RunExecute | napari_pyclesperanto_assistant/_scriptgenerators/_ScriptGeneratorBase.py:22 | dispatches `_execute` to the generator's own block, for the Jython and notebook exporters the block as `_jython.py` writes it |
| ScriptGeneratorBase.PythonScriptNeedsDialogAttribute | napari_pyclesperanto_assistant/_scriptgenerators/_ScriptGeneratorBase.py:21-22 | the driver dispatches on the metadata's dialog while the cpython generator reads the layer's `dialog` attribute: a layer with the first and not the second makes generation fail |
| ScriptGeneratorBase.ExportLayer | napari_pyclesperanto_assistant/_scriptgenerators/_ScriptGeneratorBase.py:18-30 | a layer's code is its block when it carries a dialog and its image read otherwise, then its display when visible; a layer without a dialog never fails |
| ScriptGeneratorBase.Generate | napari_pyclesperanto_assistant/_scriptgenerators/_ScriptGeneratorBase.py:7-16 | `generate` yields the header, every layer's code in order, finished; it fails exactly where a layer fails |
| ScriptGeneratorBase.AppendLayers | napari_pyclesperanto_assistant/_scriptgenerators/_ScriptGeneratorBase.py:11-16 | the loop appends every layer's code after the header and then finishes |
| ScriptGeneratorBase.CollectLayers | napari_pyclesperanto_assistant/_scriptgenerators/_ScriptGeneratorBase.py:11-12 | the loop leaves the header followed by every layer's code in layer order, or fails exactly when the collected parts fail |
| ScriptGeneratorBase.CollectLayer | napari_pyclesperanto_assistant/_scriptgenerators/_ScriptGeneratorBase.py:12 | one pass of the loop: either the layer's code extends the collected text, or its failure makes the whole collection fail |
| ScriptGeneratorBase.CollectSnoc | napari_pyclesperanto_assistant/_scriptgenerators/_ScriptGeneratorBase.py:11-12 | appending one more layer's code extends the text by that code |
| ScriptGeneratorBase.CollectStaysNone | napari_pyclesperanto_assistant/_scriptgenerators/_ScriptGeneratorBase.py:11-12 | once a layer fails, every longer prefix fails |
| ScriptGeneratorBase.CollectNoneIff | napari_pyclesperanto_assistant/_scriptgenerators/_ScriptGeneratorBase.py:11-12 | the first i layers fail exactly when one of them fails |
| ScriptGeneratorBase.GenerateFailsIff | napari_pyclesperanto_assistant/_scriptgenerators/_ScriptGeneratorBase.py:7-16 | generation fails exactly when some layer made by a dialog fails |
| ScriptGeneratorBase.AssembleFailsIff | napari_pyclesperanto_assistant/_scriptgenerators/_ScriptGeneratorBase.py:11-16 | after any header, assembling fails exactly when some layer fails |
| ScriptGeneratorBase.ExportersNeverFail | napari_pyclesperanto_assistant/_scriptgenerators/_ScriptGeneratorBase.py:7-16 | the Jython and notebook exporters always produce a text |
| ScriptGeneratorBase.AssembleNeverFails | napari_pyclesperanto_assistant/_scriptgenerators/_ScriptGeneratorBase.py:11-16 | after any header, the exporters' assembly never fails |
| ScriptGeneratorBase.CollectPrefix | napari_pyclesperanto_assistant/_scriptgenerators/_ScriptGeneratorBase.py:11-12 | layers come out in order: the code of a shorter prefix of layers is a prefix of the code of a longer one |
| ScriptGeneratorBase.CollectAt | napari_pyclesperanto_assistant/_scriptgenerators/_ScriptGeneratorBase.py:11-12 | layer j's code sits in the text right after the code of the layers before it |
| ScriptGeneratorBase.CollectAtIn | napari_pyclesperanto_assistant/_scriptgenerators/_ScriptGeneratorBase.py:8-16 | layer j's code sits right after the header and the layers before it |
| ScriptGeneratorBase.CollectOrder | napari_pyclesperanto_assistant/_scriptgenerators/_ScriptGeneratorBase.py:11-12 | the code of layer k ends before the code of any later layer begins |
| ScriptGeneratorBase.CollectLonger | napari_pyclesperanto_assistant/_scriptgenerators/_ScriptGeneratorBase.py:11-12 | more layers never give a shorter text |
| ScriptGeneratorBase.LayerFollowsPrefix | napari_pyclesperanto_assistant/_scriptgenerators/_ScriptGeneratorBase.py:11-12 | the text after k+1 layers is the text after k layers followed by layer k's code |
| ScriptGeneratorBase.LayerCodeShape | napari_pyclesperanto_assistant/_scriptgenerators/_ScriptGeneratorBase.py:18-30 | a layer's display is emitted exactly for a visible layer; a layer without a dialog starts with its image read |
| ScriptGeneratorBase.ScriptStartsWithHeader | napari_pyclesperanto_assistant/_scriptgenerators/_ScriptGeneratorBase.py:7-16 | every script (not the notebook) starts with its generator's header |
| ScriptGeneratorBase.AssembleStartsWithHeader | napari_pyclesperanto_assistant/_scriptgenerators/_ScriptGeneratorBase.py:8-16 | assembling after a header keeps it as a prefix |
| ScriptGeneratorBase.NotebookLayerCells | napari_pyclesperanto_assistant/_scriptgenerators/_ScriptGeneratorBase.py:18-30 | every layer's notebook code ends with a closed cell |
| ScriptGeneratorBase.CollectCells | napari_pyclesperanto_assistant/_scriptgenerators/_ScriptGeneratorBase.py:11-12 | parts that are closed cells collect to nothing or to closed cells |
| ScriptGeneratorBase.FinishNotebook | napari_pyclesperanto_assistant/_scriptgenerators/_ScriptGeneratorBase.py:16 | finishing a notebook whose header and cells are closed keeps its opening and ends it with the format lines |
| ScriptGeneratorBase.PartsAreCells | napari_pyclesperanto_assistant/_scriptgenerators/_ScriptGeneratorBase.py:11-12 | in a notebook every layer's code is present and ends with a closed cell |
| ScriptGeneratorBase.AssembleNotebook | napari_pyclesperanto_assistant/_scriptgenerators/_ScriptGeneratorBase.py:7-16 | after a header that opens the document and ends with a closed cell, the notebook text is always produced, starts with the document opening and ends with the nbformat lines |
| ScriptGeneratorBase.NotebookWellFormed | napari_pyclesperanto_assistant/_scriptgenerators/_ScriptGeneratorBase.py:7-16 | a generated notebook opens the document and its cell list and ends with the notebook format lines |
| Layers.IndexFrom | napari_pyclesperanto_assistant/_scriptgenerators/_JythonGenerator.py:107-110 | the search from a start position before which no layer matches finds the first matching position, or none |
| Layers.IndexOf | napari_pyclesperanto_assistant/_scriptgenerators/_JythonGenerator.py:107-110 | the position of the first layer with this identity, or none when no layer has it |
| Layers.FirstIndexUnique | napari_pyclesperanto_assistant/_scriptgenerators/_JythonGenerator.py:107-110 | the first-index description has exactly one answer |
| Layers.GetIndexOfLayer | napari_pyclesperanto_assistant/_scriptgenerators/_JythonGenerator.py:107-110 | the linear search returns a position holding the layer with no earlier match, or none exactly when no layer matches |
| Layers.Kept | napari_pyclesperanto_assistant/_scriptgenerators/_JythonGenerator.py:50-51 | only the first `len(parameter_names)` widgets are rendered, in order |
| JythonGenerator.SourceName | napari_pyclesperanto_assistant/_scriptgenerators/_JythonGenerator.py:30-33 | a layer read from a file names that file with every backslash turned into a slash; a layer without one is read by its name |
| JythonGenerator.MethodName | napari_pyclesperanto_assistant/_scriptgenerators/_JythonGenerator.py:40-42 | the called name starts with "cle." and is "cle." + the operation when it does not mention "please_select" |
| JythonGenerator.RenderedArgs | napari_pyclesperanto_assistant/_scriptgenerators/_JythonGenerator.py:50-77 | one rendered argument per kept widget, in order |
| JythonGenerator.FirstImage | napari_pyclesperanto_assistant/_scriptgenerators/_JythonGenerator.py:66-69 | none exactly when no kept widget holds a layer; otherwise the rendering of the first widget that does |
| JythonGenerator.FirstImageSnoc | napari_pyclesperanto_assistant/_scriptgenerators/_JythonGenerator.py:66-69 | one more widget keeps the first image found so far |
| JythonGenerator.RenderWidget | napari_pyclesperanto_assistant/_scriptgenerators/_JythonGenerator.py:66-77 | a layer becomes `image<index>`, a string becomes its quoted text (`image{n}` for `operation_name`), anything else its `str` |
| JythonGenerator.Execute | napari_pyclesperanto_assistant/_scriptgenerators/_JythonGenerator.py:38-85 | the widget loop yields the call block, or fails where Python raises: an unknown operation, or no image argument for the buffer line |
| JythonGenerator.ExecuteNeedsImage | napari_pyclesperanto_assistant/_scriptgenerators/_JythonGenerator.py:80 | for a known operation the block fails exactly when no kept widget holds a layer |
| JythonGenerator.ExecuteLayout | napari_pyclesperanto_assistant/_scriptgenerators/_JythonGenerator.py:38-85 | a block starts with the layer comment, makes a buffer like the first image argument, assigns the call to `image{n}` with the first rendered widget first, and ends with ")\n" |
| JythonGenerator.BlockLayout | napari_pyclesperanto_assistant/_scriptgenerators/_JythonGenerator.py:79-83 | the layout of a block's text from its pieces |
| JythonGenerator.BlockFacts | napari_pyclesperanto_assistant/_scriptgenerators/_JythonGenerator.py:79-83 | where the pieces of a block can be found in its text |
| JythonGenerator.PullShows | napari_pyclesperanto_assistant/_scriptgenerators/_JythonGenerator.py:98-103 | the display shows `image{n}`, or its maximum z projection when the data has more than two dimensions |
| JythonGenerator.PullFlags | napari_pyclesperanto_assistant/_scriptgenerators/_JythonGenerator.py:90-103 | labels are shown with `True` and no range, images with `False` and their two contrast limits |
| JythonGenerator.RenderCall | napari_pyclesperanto_assistant/_scriptgenerators/_JythonGenerator.py:49-77 | the loop over the widgets writes after the head exactly the renderings of the widgets within the parameter count, comma-separated, and remembers the rendering of the first one holding a layer |
| JythonGenerator.CallStep | napari_pyclesperanto_assistant/_scriptgenerators/_JythonGenerator.py:51-77 | one widget within the count appends its rendering, after ", " except for the first, and becomes the first image argument only when none was found before and it holds a layer |
| PythonGenerator.SourceName | napari_pyclesperanto_assistant/_scriptgenerators/_PythonGenerator.py:25-28 | the layer's `filename` attribute with no backslash left, or the layer name when the layer object has no such attribute |
| PythonGenerator.PushShape | napari_pyclesperanto_assistant/_scriptgenerators/_PythonGenerator.py:23-32 | the image read goes through `imread` of the `filename` attribute (or the name) into `image`, then is pushed to the device as `image{n}`; the metadata filename plays no part |
| PythonGenerator.Piece | napari_pyclesperanto_assistant/_scriptgenerators/_PythonGenerator.py:60-68 | a widget holding the operation itself, or the `operation_name` text, writes nothing; any other writes `<parameter>=<value>` |
| PythonGenerator.Pieces | napari_pyclesperanto_assistant/_scriptgenerators/_PythonGenerator.py:44-51 | each kept widget is named by the parameter at its position |
| PythonGenerator.Present | napari_pyclesperanto_assistant/_scriptgenerators/_PythonGenerator.py:60-68 | the written arguments, in order, never more than the widgets |
| PythonGenerator.PresentFirst | napari_pyclesperanto_assistant/_scriptgenerators/_PythonGenerator.py:60-68 | a written first widget is the first argument |
| PythonGenerator.ArgsTextSnoc | napari_pyclesperanto_assistant/_scriptgenerators/_PythonGenerator.py:44-68 | one more widget appends its argument after ", " (nothing before the very first widget) and a skipped widget appends nothing |
| PythonGenerator.ArgsTextStart | napari_pyclesperanto_assistant/_scriptgenerators/_PythonGenerator.py:44-68 | the arguments start with the first widget's when it is written; after a skipped first widget they start with a stray ", "; with no written argument the list is empty |
| PythonGenerator.Execute | napari_pyclesperanto_assistant/_scriptgenerators/_PythonGenerator.py:34-74 | the widget loop over the layer's `dialog` attribute yields the keyword call block; it fails when the layer object has no `dialog` attribute or for an operation that `cle` does not know |
| PythonGenerator.RenderKeyword | napari_pyclesperanto_assistant/_scriptgenerators/_PythonGenerator.py:60-68 | one widget as the loop writes it |
| PythonGenerator.PullIgnoresLayer | napari_pyclesperanto_assistant/_scriptgenerators/_PythonGenerator.py:76-78 | the display block depends only on the layer's position and pulls `image{n}` back |
| PythonGenerator.ExecuteLayout | napari_pyclesperanto_assistant/_scriptgenerators/_PythonGenerator.py:34-74 | a block exists only for a layer with a `dialog` attribute; it starts with the layer comment, assigns the call of `cle.<op>` to `image{n}`, and ends with ")\n" |
| PythonGenerator.BlockLayout | napari_pyclesperanto_assistant/_scriptgenerators/_PythonGenerator.py:70-73 | the layout of a block's text from its pieces |
| PythonGenerator.KeywordCall | napari_pyclesperanto_assistant/_scriptgenerators/_PythonGenerator.py:43-68 | the loop over the widgets writes after the head exactly the keyword arguments of the widgets within the parameter count |
| PythonGenerator.KeywordStep | napari_pyclesperanto_assistant/_scriptgenerators/_PythonGenerator.py:45-68 | one widget within the count appends its keyword argument after the comma chosen for its position, or nothing when it is skipped |
| ScriptWalk.Bases | pyclesperanto_assistant/_scriptgenerators/_PythonScriptGenerator.py:72-75 | the plain layers behind the walk's layers, in order |
| ScriptWalk.Piece | pyclesperanto_assistant/_scriptgenerators/_PythonScriptGenerator.py:58-65 | a widget holding the operation itself writes nothing; any other writes `<parameter>=<value>` |
| ScriptWalk.Pieces | pyclesperanto_assistant/_scriptgenerators/_PythonScriptGenerator.py:42-49 | each kept widget is named by the parameter at its position |
| ScriptWalk.ExecuteSpec | pyclesperanto_assistant/_scriptgenerators/_PythonScriptGenerator.py:32-70 | with `cle` imported (the correction of the Findings row), the call fails exactly for a dialog without a known operation; otherwise it assigns the call of `cle.<op>` to `image{n}` |
| ScriptWalk.CallShape | pyclesperanto_assistant/_scriptgenerators/_PythonScriptGenerator.py:67-68 | a call line starts with its assignment and ends with ")\n" |
| ScriptWalk.Execute | pyclesperanto_assistant/_scriptgenerators/_PythonScriptGenerator.py:32-70 | with `cle` imported, the widget loop yields the keyword call block |
| ScriptWalk.OwnShape | pyclesperanto_assistant/_scriptgenerators/_PythonScriptGenerator.py:77-96 | a layer's own code starts with its comment, has the push exactly when the layer has a file name and the call exactly when it has a dialog |
| ScriptWalk.Owns | pyclesperanto_assistant/_scriptgenerators/_PythonScriptGenerator.py:77-96 | the own code of every layer |
| ScriptWalk.OwnsUpTo | pyclesperanto_assistant/_scriptgenerators/_PythonScriptGenerator.py:77-96 | the own code of the first n layers |
| ScriptWalk.OwnsUpToAt | pyclesperanto_assistant/_scriptgenerators/_PythonScriptGenerator.py:77-96 | the k-th entry is layer k's own code |
| ScriptWalk.OwnsAt | pyclesperanto_assistant/_scriptgenerators/_PythonScriptGenerator.py:77-96 | the k-th entry is layer k's own code |
| ScriptWalk.Starts | pyclesperanto_assistant/_scriptgenerators/_PythonScriptGenerator.py:9-16 | exactly the layers without a dialog attribute start a walk |
| ScriptWalk.FollowerParts | pyclesperanto_assistant/_scriptgenerators/_PythonScriptGenerator.py:98-109 | for each layer, its walk when it follows layer k, nothing otherwise |
| ScriptWalk.ExportLayer | pyclesperanto_assistant/_scriptgenerators/_PythonScriptGenerator.py:77-110 | `_export_layer`: the layer's own code followed by the walk of every layer whose `input1` or `input2` is this layer, in list order; fails once the recursion budget runs out |
| ScriptWalk.ExportFollowers | pyclesperanto_assistant/_scriptgenerators/_PythonScriptGenerator.py:98-109 | the loop over the layers appends the walk of every follower in list order |
| ScriptWalk.FollowerPartAt | pyclesperanto_assistant/_scriptgenerators/_PythonScriptGenerator.py:98-109 | the part of layer i is its walk exactly when it follows layer k |
| ScriptWalk.RootParts | pyclesperanto_assistant/_scriptgenerators/_PythonScriptGenerator.py:9-16 | for each layer, its walk when it starts one, nothing otherwise |
| ScriptWalk.Generate | pyclesperanto_assistant/_scriptgenerators/_PythonScriptGenerator.py:6-22 | `generate`: the header, the walk from every layer without a dialog attribute in list order, then the display of the last layer |
| ScriptWalk.WalkStartsWithOwn | pyclesperanto_assistant/_scriptgenerators/_PythonScriptGenerator.py:78-96 | a walk starts with the layer's own code |
| ScriptWalk.FollowerInWalk | pyclesperanto_assistant/_scriptgenerators/_PythonScriptGenerator.py:98-109 | every follower's walk occurs inside the walk of the layer it follows, after that layer's own code |
| ScriptWalk.FollowersInOrder | pyclesperanto_assistant/_scriptgenerators/_PythonScriptGenerator.py:98-109 | followers are walked in list order without overlap |
| ScriptWalk.SelfFollowerNeverEnds | pyclesperanto_assistant/_scriptgenerators/_PythonScriptGenerator.py:98-109 | a layer that follows itself is walked to from itself without end: its walk fails for every budget |
| ScriptWalk.WalkSucceeds | pyclesperanto_assistant/_scriptgenerators/_PythonScriptGenerator.py:77-110 | when every follower comes after the layer it follows and no own code fails, a budget of one call per remaining layer suffices |
| ScriptWalk.SelfInputFails | pyclesperanto_assistant/_scriptgenerators/_PythonScriptGenerator.py:101-105 | a layer that takes itself as an input makes its walk fail whatever the budget |
| ScriptWalk.GenerateFailsIff | pyclesperanto_assistant/_scriptgenerators/_PythonScriptGenerator.py:6-22 | generation fails exactly when the walk from some layer without a dialog attribute fails |
| ScriptWalk.GenerateSucceeds | pyclesperanto_assistant/_scriptgenerators/_PythonScriptGenerator.py:6-22 | with `cle` imported, forward dependencies, known operations and a budget of one call per layer, generation succeeds |
| ScriptWalk.OwnAsWritten | pyclesperanto_assistant/_scriptgenerators/_PythonScriptGenerator.py:32-35 | as written, a layer's own code fails exactly when it holds a call, since `cle` is an unbound name in the module |
| ScriptWalk.OwnsAsWritten | pyclesperanto_assistant/_scriptgenerators/_PythonScriptGenerator.py:77-96 | the own code of every layer as written, by position |
| ScriptWalk.AsWrittenFailsIff | pyclesperanto_assistant/_scriptgenerators/_PythonScriptGenerator.py:1-33 | as written (with a budget of at least one call), no script comes out exactly when some layer without a dialog attribute has a follower |
| ScriptWalk.AsWrittenExample | pyclesperanto_assistant/_scriptgenerators/_PythonScriptGenerator.py:1-33 | a file layer and one blurred result of it: as written no script comes out, with `cle` imported one does |
| ScriptWalk.ScriptFrame | pyclesperanto_assistant/_scriptgenerators/_PythonScriptGenerator.py:7-20 | the script starts with the header and ends by showing `image{len(layers) - 1}`, whichever layers were walked |
| ScriptWalk.NoStartNoCode | pyclesperanto_assistant/_scriptgenerators/_PythonScriptGenerator.py:9-20 | when every layer has a dialog, the script is the header and the footer alone |
| ScriptWalk.EmptyParts | pyclesperanto_assistant/_scriptgenerators/_PythonScriptGenerator.py:9-16 | parts that are all empty collect to the empty text |
| ScriptWalk.RootWalkInBody | pyclesperanto_assistant/_scriptgenerators/_PythonScriptGenerator.py:9-16 | the walk from every start layer occurs in the code of all walks |
| ScriptWalk.RootsInOrder | pyclesperanto_assistant/_scriptgenerators/_PythonScriptGenerator.py:9-16 | the walks from the start layers come in list order without overlap |
| ScriptWalk.CopyInBody | pyclesperanto_assistant/_scriptgenerators/_PythonScriptGenerator.py:9-16 | the walk of a follower of a start layer occurs inside that start layer's walk |
| ScriptWalk.TwiceInBody | pyclesperanto_assistant/_scriptgenerators/_PythonScriptGenerator.py:98-109 | a layer following two start layers occurs twice in the code of all walks, without overlap |
| ScriptWalk.GenerateFrame | pyclesperanto_assistant/_scriptgenerators/_PythonScriptGenerator.py:6-22 | a generated script is the header, the code of all walks and the footer |
| ScriptWalk.WrittenOncePerSource | pyclesperanto_assistant/_scriptgenerators/_PythonScriptGenerator.py:98-109 | a layer whose dialog takes two start layers as inputs is written twice in the script, once in each of their walks, without overlap |
| ScriptWalk.TwiceInScript | pyclesperanto_assistant/_scriptgenerators/_PythonScriptGenerator.py:98-109 | the same, inside the code of all walks framed by a head and a tail |
| CategoryWidget.NamesOf | napari_pyclesperanto_assistant/_gui/_category_widget.py:438-458 | the names of the parameters whose annotation is one of the wanted kinds, never more than there are parameters |
| CategoryWidget.NamesOfConcat | napari_pyclesperanto_assistant/_gui/_category_widget.py:438-458 | the list comprehensions filter element by element: filtering two stretches of a signature is filtering each and concatenating |
| CategoryWidget.NamesOfMember | napari_pyclesperanto_assistant/_gui/_category_widget.py:438-458 | a name is listed exactly when some parameter of a wanted annotation carries it (both directions) |
| CategoryWidget.NamesOfAll | napari_pyclesperanto_assistant/_gui/_category_widget.py:438-458 | nothing is dropped exactly when every parameter has a wanted annotation |
| CategoryWidget.NamesOfUnion | napari_pyclesperanto_assistant/_gui/_category_widget.py:438-458 | filtering by two disjoint annotation sets gives, as a multiset, the filter by their union |
| CategoryWidget.NumPositionalArgs | napari_pyclesperanto_assistant/_gui/_category_widget.py:50-52 | the count of parameters annotated Image, int, str, float or bool; at most the number of parameters |
| CategoryWidget.NumPositionalArgsCounts | napari_pyclesperanto_assistant/_gui/_category_widget.py:50-52 | the count is the image parameters plus the scalar ones, and equals the parameter count exactly when every annotation is one of the five |
| CategoryWidget.SeparatePartition | napari_pyclesperanto_assistant/_gui/_category_widget.py:438-459 | the numeric, boolean and text name lists partition the scalar parameter names |
| CategoryWidget.SeparateInOrder | napari_pyclesperanto_assistant/_gui/_category_widget.py:438-459 | all four name lists keep declaration order |
| CategoryWidget.SlotCount | napari_pyclesperanto_assistant/_gui/_category_widget.py:32-45 | the number of GUI slots of one group in a slot list, at most its length |
| CategoryWidget.SlotCountStep | napari_pyclesperanto_assistant/_gui/_category_widget.py:32-45 | counting one more slot adds one exactly when it is of the group |
| CategoryWidget.SlotListsAgree | napari_pyclesperanto_assistant/_gui/_category_widget.py:32-48 | the numeric, bool and text slot name lists name the slots of category_args group by group, in order |
| CategoryWidget.SlotCountPrefix | napari_pyclesperanto_assistant/_gui/_category_widget.py:32-45 | category_args holds six numeric slots, then three boolean, then three text |
| CategoryWidget.InGroup | napari_pyclesperanto_assistant/_gui/_category_widget.py:103-112 | the parameter names that fall into one group by the numeric-first membership test, in order |
| CategoryWidget.InGroupSnoc | napari_pyclesperanto_assistant/_gui/_category_widget.py:103-112 | one more parameter adds its name to its group only |
| CategoryWidget.SlotOfStep | napari_pyclesperanto_assistant/_gui/_category_widget.py:100-113 | one step of the counter loop: the parameter reads the slot its group's counter points at, and only that counter advances |
| CategoryWidget.SlotArgs | napari_pyclesperanto_assistant/_gui/_category_widget.py:100-114 | the slot values read for the parameters, one per parameter; present exactly when every parameter has a slot and the keyword arguments hold it |
| CategoryWidget.CollectArgs | napari_pyclesperanto_assistant/_gui/_category_widget.py:100-115 | the counter loop of call_op equals the reference reading of slot values |
| CategoryWidget.Prefix | napari_pyclesperanto_assistant/_gui/_category_widget.py:121 | Python's s[:n] for a non-negative n: the first min(n, length) items |
| CategoryWidget.GpuInputs | napari_pyclesperanto_assistant/_gui/_category_widget.py:80-81 | one device input per layer input, a missing input replaced by the first input's data |
| CategoryWidget.SlotValues | napari_pyclesperanto_assistant/_gui/_category_widget.py:114 | one positional argument per slot value, in order |
| CategoryWidget.CallOpSpec | napari_pyclesperanto_assistant/_gui/_category_widget.py:56-127 | no call without a first input or for an unknown operation; otherwise a call happens exactly when every parameter's slot is available |
| CategoryWidget.AssembleLayout | napari_pyclesperanto_assistant/_gui/_category_widget.py:117-127 | the call starts with the inputs (a missing one standing for the first), a prototype operation then gets the empty output slot, the slot values follow in order, and the whole is cut to nargs (nargs + 1 for other operations) |
| CategoryWidget.CallOp | napari_pyclesperanto_assistant/_gui/_category_widget.py:56-127 | call_op without the device work equals the reference call |
| CategoryWidget.PrefixOfConcat | napari_pyclesperanto_assistant/_gui/_category_widget.py:121 | a cut of a concatenation keeps the head first and fills the rest from the tail |
| CategoryWidget.GroupOfParam | napari_pyclesperanto_assistant/_gui/_category_widget.py:103-112 | with distinct parameter names, the membership test puts a parameter in its own annotation's group |
| CategoryWidget.InGroupIsNames | napari_pyclesperanto_assistant/_gui/_category_widget.py:96-112 | with distinct names, picking a group's names out of the positional names by membership gives that group's list from separate_argnames_by_type |
| CategoryWidget.InGroupPosition | napari_pyclesperanto_assistant/_gui/_category_widget.py:100-112 | the k-th name of a group sits at a parameter position with exactly k earlier names of that group |
| CategoryWidget.KthParameterTakesKthSlot | napari_pyclesperanto_assistant/_gui/_category_widget.py:100-112 | for distinct names, the k-th numeric, boolean or text parameter reads the k-th slot of that group |
| CategoryWidget.ShownStep | napari_pyclesperanto_assistant/_gui/_category_widget.py:398-425 | one slot more: the shown count of its group grows by one exactly when that group still has parameters |
| CategoryWidget.Relabel | napari_pyclesperanto_assistant/_gui/_category_widget.py:398-425 | the relabelling loop gives each slot the k-th parameter name of its group, or hides it |
| CategoryWidget.UpdatePositionalLabels | napari_pyclesperanto_assistant/_gui/_category_widget.py:386-425 | update_positional_labels labels every slot of category_args by the reference rule |
| CategoryWidget.ShownSlotFeedsItsParameter | napari_pyclesperanto_assistant/_gui/_category_widget.py:386-425 | the label a slot shows names the parameter call_op passes that slot's value to |
| CategoryWidget.HiddenBeyondCount | napari_pyclesperanto_assistant/_gui/_category_widget.py:398-421 | a slot is hidden exactly when its group has no more parameters than slots before it |
| CategoryWidget.InputParams | napari_pyclesperanto_assistant/_gui/_category_widget.py:240-243 | one keyword-only parameter input0, input1, ... per category input, annotated with its type |
| CategoryWidget.GenerateSignature | napari_pyclesperanto_assistant/_gui/_category_widget.py:234-276 | the signature equals the inputs, the operation chooser (its default kept only when it is a choice), the twelve slots with the category's default overrides, and the viewer |
| CategoryWidget.InputNameShape | napari_pyclesperanto_assistant/_gui/_category_widget.py:241 | every input parameter name starts with "input" followed by digits |
| CategoryWidget.SignatureNamesDistinct | napari_pyclesperanto_assistant/_gui/_category_widget.py:234-276 | the generated signature has no two parameters with the same name |
| CategoryWidget.FixClims | napari_pyclesperanto_assistant/_gui/_category_widget.py:202-205 | the lower contrast limit is kept; an upper limit of 0 becomes 1 and any other is kept |
| CategoryWidget.FindOp | napari_pyclesperanto_assistant/_gui/_category_widget.py:212 | the first viewer layer carrying the operation id, or none when no layer carries it |
| CategoryWidget.Viewer.constructor | napari_pyclesperanto_assistant/_gui/_category_widget.py:159-169 | a viewer holding the given layers |
| CategoryWidget.ShowResult | napari_pyclesperanto_assistant/_gui/_category_widget.py:159-232 | without a viewer nothing is shown; otherwise the layer of this operation gets the new data and name, or a new layer is added (an image with the fixed contrast limits, or labels) |
| CategoryWidget.ShowResultKeepsOneLayerPerOp | napari_pyclesperanto_assistant/_gui/_category_widget.py:210-226 | showing a result never creates a second layer for the same operation id, and the shown layer carries the new name and data |
| CategoryWidget.ShowResultAgainUpdates | napari_pyclesperanto_assistant/_gui/_category_widget.py:210-216 | showing a result of the same operation again updates that layer in place and adds none |
| Assistant.ImageNameInjective | napari_pyclesperanto_assistant/_gui/_Assistant.py:231 | distinct counters give distinct "image" names |
| Assistant.IdToName | napari_pyclesperanto_assistant/_gui/_Assistant.py:228-232 | a known key gets its stored name and the dictionary is unchanged; a new key gets "image" followed by the number of keys so far, and is added |
| Assistant.IdToNameKeepsNumbered | napari_pyclesperanto_assistant/_gui/_Assistant.py:228-232 | a dictionary filled only by name lookups keeps its names as image0, image1, ... in first-seen order, and they stay distinct |
| Assistant.IdToNameIdempotent | napari_pyclesperanto_assistant/_gui/_Assistant.py:228-232 | a second lookup of the same key returns the same name and changes nothing |
| Assistant.ScanWidgetFacts | napari_pyclesperanto_assistant/_gui/_Assistant.py:246-259 | one dialog widget: viewer and op-name widgets are skipped; a layer adds one input name (the name of its operation id, or of the shared fallback key), any other value adds one literal argument; earlier names are kept |
| Assistant.ScanAllFacts | napari_pyclesperanto_assistant/_gui/_Assistant.py:246-259 | the widget loop appends the literal arguments in widget order and one input name per layer widget, each the dictionary's name for that layer's key |
| Assistant.ScanAllNumbered | napari_pyclesperanto_assistant/_gui/_Assistant.py:246-259 | the widget loop keeps the name dictionary numbered image0, image1, ... |
| Assistant.ReadEntriesShareOneName | napari_pyclesperanto_assistant/_gui/_Assistant.py:252-256 | every graph entry the widget loop adds or changes sits under the single name of the fallback key "some_random_key" |
| Assistant.ReadEntryFiled | napari_pyclesperanto_assistant/_gui/_Assistant.py:252-256 | an input layer without an operation id files a `cle.imread` entry of its quoted source path (backslashes turned to '/', or "file" without a source), no arguments, not labels, with the tracked layer's contrast limits |
| Assistant.SliceAsWritten | napari_pyclesperanto_assistant/_gui/_Assistant.py:265-268 | `args[:nargs]` with Python's slicing, where a negative bound counts from the end |
| Assistant.SliceAsWrittenKeepsUnused | napari_pyclesperanto_assistant/_gui/_Assistant.py:265-268 | with a negative bound the slice as written still keeps an argument the operation has no room for |
| Assistant.KeepArgs | napari_pyclesperanto_assistant/_gui/_Assistant.py:265-268 | the correction of the slice, which the graph does not use: the first max(0, min(nargs, number of args)) literal arguments, in order |
| Assistant.KeepArgsAgreesWhenNonNegative | napari_pyclesperanto_assistant/_gui/_Assistant.py:265-268 | for a bound that is not negative the corrected truncation equals the slice as written |
| Assistant.EntryStepFiles | napari_pyclesperanto_assistant/_gui/_Assistant.py:237-271 | after one tracked layer, the name of its own key (operation id or fallback) holds its entry: the operation found by name (or none), the input names of its layer widgets, the literal arguments cut by `args[:nargs]` (with Python's negative bounds) only when the operation was found, its labels flag and contrast limits |
| Assistant.InputsStayNamed | napari_pyclesperanto_assistant/_gui/_Assistant.py:259 | input names read from the dictionary stay valid after it grows |
| Assistant.GraphNamedStep | napari_pyclesperanto_assistant/_gui/_Assistant.py:271 | filing an entry under a handed-out name keeps every graph name a handed-out name |
| Assistant.ToDaskNamed | napari_pyclesperanto_assistant/_gui/_Assistant.py:234-273 | every graph name built by to_dask is one of the handed-out names image0, image1, ..., distinct per key |
| Assistant.FindId | napari_pyclesperanto_assistant/_gui/_Assistant.py:156 | the position of the tracked layer with the given identity, or none when it is not tracked |
| Assistant.FindIdFirst | napari_pyclesperanto_assistant/_gui/_Assistant.py:156 | the first tracked layer with the identity is the one found |
| Assistant.WithoutFacts | napari_pyclesperanto_assistant/_gui/_Assistant.py:154-163 | removing a layer drops exactly its entry: every other tracked layer stays, identities stay distinct, and the count drops by one only when it was tracked |
| Assistant.PutFacts | napari_pyclesperanto_assistant/_gui/_Assistant.py:197 | tracking a layer keeps identities distinct, holds the new entry, keeps every other entry, and grows the count only for a new layer |
| Assistant.Assistant.constructor | napari_pyclesperanto_assistant/_gui/_Assistant.py:62 | the assistant starts tracking no layers |
| Assistant.Assistant.Track | napari_pyclesperanto_assistant/_gui/_Assistant.py:197 | tracking a result layer stores it with its dialog, replacing an earlier entry for the same layer |
| Assistant.Assistant.OnLayerRemoved | napari_pyclesperanto_assistant/_gui/_Assistant.py:154-163 | a removed layer is popped from the tracked layers if tracked; otherwise nothing changes |
| Assistant.Assistant.ToDask | napari_pyclesperanto_assistant/_gui/_Assistant.py:234-273 | the graph equals the reference fold over the tracked layers in insertion order, arguments cut by `args[:nargs]` as written |
| Assistant.ScanDialog | napari_pyclesperanto_assistant/_gui/_Assistant.py:246-259 | the widget loop over one dialog equals the reference scan |
| Operations.Viewer.constructor | napari_pyclesperanto_assistant/_operations/_operations.py:45 | a viewer to which no widget has added a layer yet |
| Operations.ResultLayer.constructor | napari_pyclesperanto_assistant/_operations/_operations.py:47-51 | a result layer holding the given data, name, contrast limits and translation |
| Operations.Dialog.constructor | napari_pyclesperanto_assistant/_operations/_operations.py:46 | a widget whose layer attribute is not yet set |
| Operations.CallArguments | napari_pyclesperanto_assistant/_operations/_operations.py:11-21 | with more arguments than the operation has parameters only the first parameter-count arguments are passed; otherwise all of them, in order |
| Operations.FixMaxIntensity | napari_pyclesperanto_assistant/_operations/_operations.py:39-41 | an upper contrast limit of 0 becomes 1; any other is kept |
| Operations.MeshRange | napari_pyclesperanto_assistant/_operations/_operations.py:273-276 | the lower limit is the minimum; equal minimum and maximum give maximum = minimum + 1, so the range is never empty |
| Operations.Run | napari_pyclesperanto_assistant/_operations/_operations.py:32-321 | without an input nothing happens; an unknown operation raises with nothing changed; otherwise the operation gets the widget's arguments cut to its parameter count, and the first call adds the result layer while later calls replace the dialog layer's data, "Result of" name, contrast limits (where the widget sets them) and translation |
| Operations.AddedLayerAppearance | napari_pyclesperanto_assistant/_operations/_operations.py:46-310 | the first call adds the output at the input's translation: as labels for binarize, label and label processing; else as an image in the input's colormap, in "turbo" with nearest interpolation for label measurements and map, in "green" with additive blending for the mesh |
| Operations.ContrastRangeNonEmpty | napari_pyclesperanto_assistant/_operations/_operations.py:39-285 | every contrast range a widget assigns has distinct lower and upper limits |
| Operations.BinarizeIgnoresRadiusZ | napari_pyclesperanto_assistant/_operations/_operations.py:129 | binarize passes radius_y in the third radius position, so its call does not depend on radius_z |
| Operations.MissingSecondInputPairsFirst | napari_pyclesperanto_assistant/_operations/_operations.py:151-152 | combine and label_measurements without a second input pass the first input's data twice |
| Operations.SetItem | napari_pyclesperanto_assistant/_operations/_operations.py:335 | setItem writes one cell of the grid and ignores a cell outside it |
| Operations.FillTable | napari_pyclesperanto_assistant/_operations/_operations.py:334-337 | the nested loops put each column name in row 0 and its j-th value in row j + 1, and leave every other cell empty |
| Operations.TableToWidget | napari_pyclesperanto_assistant/_operations/_operations.py:332-338 | as written: a grid of as many rows as the first column has values and one column per table column, filled by the loops; nothing for an empty table |
| Operations.LastValueNotShown | napari_pyclesperanto_assistant/_operations/_operations.py:333 | with the header row counted in, a one-value column shows its name and not its value |
| Operations.LongestColumn | napari_pyclesperanto_assistant/_operations/_operations.py:333 | the length of the longest column: no column is longer, and one column has that length |
| Operations.TableToWidgetAllRows | napari_pyclesperanto_assistant/_operations/_operations.py:332-338 | corrected: a grid of one header row plus the longest column's length, filled by the same loops |
| Operations.EveryValueShown | napari_pyclesperanto_assistant/_operations/_operations.py:332-338 | in the corrected grid every column name and every value has its own cell |
| LegacyOperations.Dialog.constructor | pyclesperanto_assistant/_operations/_operations.py:30-32 | a widget with initial_call set and no result layer |
| LegacyOperations.Run | pyclesperanto_assistant/_operations/_operations.py:17-259 | without an input nothing happens; an unknown operation or more arguments than it takes raises with nothing changed; the first call adds the result and clears initial_call; the first call leaves an already-set dialog layer unchanged; later calls replace the data, bare operation name and contrast limits (where set) of the dialog layer and keep its translation |
| LegacyOperations.ArityCutAgrees | pyclesperanto_assistant/_operations/_operations.py:17-259 | the widgets pass at most five arguments, and for an operation that takes all of them the newer variant's cut changes nothing |
| WorkflowIO.Drop10 | napari_pyclesperanto_assistant/_workflow_io_utility.py:112 | name[10:]: empty for a name of at most ten characters, otherwise the name without its first ten |
| WorkflowIO.WidgetNameDropsPrefix | napari_pyclesperanto_assistant/_workflow_io_utility.py:148-161 | a step named "Result of <op>" gets the dock and widget name <op> and creates the layer "Result of <op>", its own step name |
| WorkflowIO.Repeat | napari_pyclesperanto_assistant/_workflow_io_utility.py:287-291 | n copies of a step name |
| WorkflowIO.WfStepsWithRootAsInput | napari_pyclesperanto_assistant/_workflow_io_utility.py:276-292 | the loop over tasks and their entries lists each step once per entry that is a root name, in task order |
| WorkflowIO.RootCountPositive | napari_pyclesperanto_assistant/_workflow_io_utility.py:288-291 | a task has a root entry exactly when its root count is positive |
| WorkflowIO.RootStepsMembers | napari_pyclesperanto_assistant/_workflow_io_utility.py:276-292 | a step is listed exactly when one of its entries is a root name |
| WorkflowIO.RootStepListedPerEntry | napari_pyclesperanto_assistant/_workflow_io_utility.py:288-291 | a step reading the same root twice is listed twice |
| WorkflowIO.SourceKeywordsMembers | napari_pyclesperanto_assistant/_workflow_io_utility.py:312 | a (keyword, image) pair is listed exactly when keyword and image sit at the same position of the zip and the image is a source of the step |
| WorkflowIO.GetSourceKeywordsAndSources | napari_pyclesperanto_assistant/_workflow_io_utility.py:294-314 | the source keyword pairs of a step; no result (a KeyError) exactly when the step is not a task |
| WorkflowIO.Zip | napari_pyclesperanto_assistant/_workflow_io_utility.py:216 | zip(params, args): as long as the shorter list, pairing items at equal positions |
| WorkflowIO.UnpoppedMembers | napari_pyclesperanto_assistant/_workflow_io_utility.py:221-223 | an entry is kept exactly when it was present and is not an input-image value under a key other than 'viewer' |
| WorkflowIO.KeyOnlyAt | napari_pyclesperanto_assistant/_workflow_io_utility.py:219-223 | with distinct keys, the key at position j occurs neither among the kept earlier entries nor among the later ones |
| WorkflowIO.PopStep | napari_pyclesperanto_assistant/_workflow_io_utility.py:221-223 | one pass of the pop loop: the key reads its own value, and popping it exactly when its entry is popped extends the kept prefix by one |
| WorkflowIO.SignatureKwargs | napari_pyclesperanto_assistant/_workflow_io_utility.py:195-225 | the keyword defaults of a step: the zip of parameter names and task values without the input-image entries (other than 'viewer'); no result when the step is not a task |
| WorkflowIO.ZipToDict | napari_pyclesperanto_assistant/_workflow_io_utility.py:215-217 | the first loop builds the dictionary of the zipped pairs, with distinct keys |
| WorkflowIO.PopInputs | napari_pyclesperanto_assistant/_workflow_io_utility.py:219-223 | the second loop, over a copy of the keys, leaves exactly the entries that are not popped, in order |
| WorkflowIO.KwargsMembers | napari_pyclesperanto_assistant/_workflow_io_utility.py:208-223 | a keyword is preset with a value exactly when they sit at the same position and the value is not an input image name, or the keyword is 'viewer' |
| WorkflowIO.ZipDistinct | napari_pyclesperanto_assistant/_workflow_io_utility.py:212-217 | distinct parameter names give a zip with distinct keys |
| WorkflowIO.ZipMembers | napari_pyclesperanto_assistant/_workflow_io_utility.py:216 | a zip item pairs a parameter and an argument at the same position, and every such pair is an item |
| WorkflowIO.LayerChoicesMembers | napari_pyclesperanto_assistant/_workflow_io_utility.py:253-274 | a choice is offered exactly for the data of each layer of that name, always under the key "<name> (data)" |
| WorkflowIO.Enqueue | napari_pyclesperanto_assistant/_workflow_io_utility.py:126-128 | appending new followers only extends the queue at its end |
| WorkflowIO.SourcesPresent | napari_pyclesperanto_assistant/_workflow_io_utility.py:79-82 | the flag loop is true exactly when every source is among the layer names |
| WorkflowIO.EnqueueFollowers | napari_pyclesperanto_assistant/_workflow_io_utility.py:126-128 | the loop over new followers equals the reference queue extension |
| WorkflowIO.RunUnfold | napari_pyclesperanto_assistant/_workflow_io_utility.py:72-128 | one iteration of the bounded loop: a step that raises ends loading at that state; otherwise loading continues from the next state |
| WorkflowIO.CollectFollowers | napari_pyclesperanto_assistant/_workflow_io_utility.py:66-68 | the followers of the root steps, concatenated in order |
| WorkflowIO.ProcessFollower | napari_pyclesperanto_assistant/_workflow_io_utility.py:73-128 | the loop body raises exactly when the follower has all its sources but is not a task, leaving everything unchanged; otherwise it yields the reference next state |
| WorkflowIO.LoadIteration | napari_pyclesperanto_assistant/_workflow_io_utility.py:72-128 | one iteration stated against the bounded loop: a raise ends loading in the current state, otherwise loading continues from the next position |
| WorkflowIO.Worklist | napari_pyclesperanto_assistant/_workflow_io_utility.py:72-128 | the loop over the growing followers list equals the reference run within the iteration bound |
| WorkflowIO.LoadRemainingWorkflow | napari_pyclesperanto_assistant/_workflow_io_utility.py:48-128 | load_remaining_workflow equals the reference run from the followers of the root steps |
| WorkflowIO.EnqueueFacts | napari_pyclesperanto_assistant/_workflow_io_utility.py:85-87 | every new follower ends up queued after position i, and each one appended was not already queued there |
| WorkflowIO.RequeueFacts | napari_pyclesperanto_assistant/_workflow_io_utility.py:85-87 | a follower with missing sources stays queued after its position, and is appended only when it is not queued there already |
| WorkflowIO.StepJustified | napari_pyclesperanto_assistant/_workflow_io_utility.py:72-128 | one iteration keeps the queue up to its position, advances by one, and every dock it opens is for a reached step whose sources all exist, named name[10:], with autocall exactly for at most one source |
| WorkflowIO.RunJustified | napari_pyclesperanto_assistant/_workflow_io_utility.py:72-128 | loading opens docks only for reached steps whose inputs all exist as layers, and never removes a layer name |
| WorkflowIO.StuckNeverFinishes | napari_pyclesperanto_assistant/_workflow_io_utility.py:72-87 | when no queued follower from the current position on has its sources, the loop never finishes: every bound is used up |
| WorkflowIO.Iterate | napari_pyclesperanto_assistant/_workflow_io_utility.py:72-128 | the iterations agree with the reference run: a raise gives the reference run's outcome, otherwise the reference run continues from where the iterations stopped, which is at the end of the queue or with no iteration left |
| WorkflowIO.RunStops | napari_pyclesperanto_assistant/_workflow_io_utility.py:72 | with the queue exhausted loading finishes, and with no iteration left before the end it stops at the bound |
| AdvancedStatistics.SelectedColumnsMembers | napari_pyclesperanto_assistant/_advanced_statistics.py:24-41 | the base columns are always chosen, the intensity columns exactly when the source names "intensity", the shape columns exactly when it names "shape", and nothing else |
| AdvancedStatistics.RestrictMembers | napari_pyclesperanto_assistant/_advanced_statistics.py:47-49 | the comprehension keeps exactly the measured items whose column is chosen |
| AdvancedStatistics.RestrictConcat | napari_pyclesperanto_assistant/_advanced_statistics.py:91-93 | the comprehension keeps the items in the table's order |
| AdvancedStatistics.RestrictGet | napari_pyclesperanto_assistant/_advanced_statistics.py:91-93 | a chosen column reads as in the measured table; any other key is absent |
| AdvancedStatistics.AvgItems | napari_pyclesperanto_assistant/_advanced_statistics.py:118-126 | one assignment per neighbour count, in order |
| AdvancedStatistics.RegionPropsWithNeighborhoodData | napari_pyclesperanto_assistant/_advanced_statistics.py:57-138 | raises ValueError exactly when the label image holds no label, because `np.min` of the empty selection fails; otherwise the loops restrict the measured table to the chosen and measurement columns, then set one average-distance key per neighbour count and the touching-neighbour count |
| AdvancedStatistics.NeighborhoodProps | napari_pyclesperanto_assistant/_advanced_statistics.py:79-138 | once a label exists, the loops restrict the measured table to the chosen and measurement columns, then set one average-distance key per neighbour count and the touching-neighbour count |
| AdvancedStatistics.RegpropsFromSourceCases | napari_pyclesperanto_assistant/_advanced_statistics.py:6-54 | no table exactly when the source names none of "shape", "intensity", "neighborhood"; "shape" or "intensity" gives the chosen columns; "neighborhood" alone gives the neighbourhood table over the base columns when the label image holds a label, and raises ValueError exactly when it holds none |
| AdvancedStatistics.AvgKeyInjective | napari_pyclesperanto_assistant/_advanced_statistics.py:125 | different neighbour counts give different "avg distance of n closest points" keys |
| AdvancedStatistics.AvgItemsGet | napari_pyclesperanto_assistant/_advanced_statistics.py:118-126 | after the loop each neighbour count's key holds its average distance |
| AdvancedStatistics.AvgItemsKeep | napari_pyclesperanto_assistant/_advanced_statistics.py:118-126 | keys that are no neighbour-count key read as before the loop |
| AdvancedStatistics.NeighborhoodTableGet | napari_pyclesperanto_assistant/_advanced_statistics.py:79-138 | the neighbourhood table holds the touching-neighbour count, each neighbour count's average distance, every chosen or measurement column as measured, and nothing else |
| NeighborhoodStatistics.NeighborhoodsMembers | napari_pyclesperanto_assistant/_neighborhood_statistics.py:69-92 | "tn", "tntn", "pn" + distance and "nn" + n are neighbourhoods exactly when their switches are on; there are no others and none twice |
| NeighborhoodStatistics.EnabledMembers | napari_pyclesperanto_assistant/_neighborhood_statistics.py:113-133 | a measure is computed exactly when its switch is on |
| NeighborhoodStatistics.EnabledDistinct | napari_pyclesperanto_assistant/_neighborhood_statistics.py:113-133 | no measure is computed twice for one column and neighbourhood |
| NeighborhoodStatistics.Items | napari_pyclesperanto_assistant/_neighborhood_statistics.py:96-133 | one output assignment per cell, under the cell's key |
| NeighborhoodStatistics.StatsOf | napari_pyclesperanto_assistant/_neighborhood_statistics.py:113-133 | one cell per measure, for one column and neighbourhood |
| NeighborhoodStatistics.CellsSnoc | napari_pyclesperanto_assistant/_neighborhood_statistics.py:96-133 | the outer loop over columns adds one column's cells at a time |
| NeighborhoodStatistics.ItemsConcat | napari_pyclesperanto_assistant/_neighborhood_statistics.py:96-133 | the assignments of two stretches of cells are those of each, in order |
| NeighborhoodStatistics.PutMeasures | napari_pyclesperanto_assistant/_neighborhood_statistics.py:113-133 | the measure tests assign the enabled measures of one column over one neighbourhood, in order |
| NeighborhoodStatistics.PutOpt | napari_pyclesperanto_assistant/_neighborhood_statistics.py:113-133 | a measure test assigns its key when its switch is on and changes nothing otherwise |
| NeighborhoodStatistics.PutNeighborhoods | napari_pyclesperanto_assistant/_neighborhood_statistics.py:107-133 | the neighbourhood loop assigns the enabled measures over each neighbourhood in turn |
| NeighborhoodStatistics.NeighborhoodStatisticsOfData | napari_pyclesperanto_assistant/_neighborhood_statistics.py:54-135 | the output table equals the assignments the column, neighbourhood and measure loops make, in order |
| NeighborhoodStatistics.ParseDerived | napari_pyclesperanto_assistant/_neighborhood_statistics.py:117 | a key read back is a measure over a neighbourhood of a column, or nothing |
| NeighborhoodStatistics.MeasureOfDerivedKey | napari_pyclesperanto_assistant/_neighborhood_statistics.py:117-133 | a derived key's prefix names its own measure |
| NeighborhoodStatistics.NotDerived | napari_pyclesperanto_assistant/_neighborhood_statistics.py:117-133 | a key starting with neither 'm' nor 's' is no derived key |
| NeighborhoodStatistics.DerivedKeyRoundTrip | napari_pyclesperanto_assistant/_neighborhood_statistics.py:117-133 | a key "<measure>_<neighbourhood>_<column>" reads back to its measure, neighbourhood and column when the neighbourhood holds no '_' |
| NeighborhoodStatistics.NatToStringNoUnderscore | napari_pyclesperanto_assistant/_neighborhood_statistics.py:92 | a printed number holds no '_' |
| NeighborhoodStatistics.NeighborhoodsNoUnderscore | napari_pyclesperanto_assistant/_neighborhood_statistics.py:69-92 | with a proximal distance printed without '_', no neighbourhood name holds one |
| NeighborhoodStatistics.NeighborhoodCellsMembers | napari_pyclesperanto_assistant/_neighborhood_statistics.py:107-133 | the cells of a column are exactly its enabled measures over the enabled neighbourhoods |
| NeighborhoodStatistics.CellsMembers | napari_pyclesperanto_assistant/_neighborhood_statistics.py:96-133 | every input column is copied, and a measure of a column over a neighbourhood is output exactly when the column is not label/frame in any case, and the neighbourhood and measure are enabled |
| NeighborhoodStatistics.NeighborhoodCellsCount | napari_pyclesperanto_assistant/_neighborhood_statistics.py:107-133 | a column gets one cell per neighbourhood and enabled measure |
| NeighborhoodStatistics.CellsCount | napari_pyclesperanto_assistant/_neighborhood_statistics.py:96-133 | one cell per column plus, per non-label column, one per neighbourhood and enabled measure |
| NeighborhoodStatistics.NeighborhoodCellsDistinct | napari_pyclesperanto_assistant/_neighborhood_statistics.py:107-133 | distinct neighbourhoods give distinct cells for a column |
| NeighborhoodStatistics.CellsDistinct | napari_pyclesperanto_assistant/_neighborhood_statistics.py:96-133 | distinct columns and distinct neighbourhoods give distinct cells |
| NeighborhoodStatistics.KeysDiffer | napari_pyclesperanto_assistant/_neighborhood_statistics.py:96-133 | when no input column reads back as a derived key, different output cells get different keys |
| NeighborhoodStatistics.OutputHoldsEveryCell | napari_pyclesperanto_assistant/_neighborhood_statistics.py:54-135 | for distinct columns none of which reads back as a derived key, no assignment overwrites another: the output holds every cell once |
| NeighborhoodStatistics.TwentyTwoColumns | napari_pyclesperanto_assistant/_neighborhood_statistics.py:54-135 | the table {label, area} with all four neighbourhoods and all five measures gives 2 + 1 * 4 * 5 = 22 columns |
| Requirements.ReadRequirements | setup.py:20-27 | the loop yields, in file order, each line's text before its first `#`, stripped of every character `str.isspace` accepts, for every line where that text is not empty |
| Requirements.StrippedClean | setup.py:25 | a stripped line holds no `#` and neither starts nor ends with whitespace |
| Requirements.Entries | setup.py:24-25 | one stripped entry per line, in line order |
| Requirements.KeptMembers | setup.py:26-27 | an entry is kept exactly when it is not empty |
| Requirements.KeptConcat | setup.py:24-27 | keeping entries commutes with concatenating files |
| Requirements.RequirementsClean | setup.py:24-27 | no requirement is empty, holds a `#`, or starts or ends with whitespace |
| Requirements.RequirementsConcat | setup.py:23-27 | the requirements of two consecutive parts of a file are those of the first part followed by those of the second |
| Requirements.RequirementsMembers | setup.py:24-27 | a string is a requirement exactly when it is not empty and some line strips to it |
| Requirements.CommentLineDropped | setup.py:25-26 | a line of whitespace followed by `#` contributes nothing |
| Requirements.AllSpaceStripsLeft | setup.py:25 | stripping a whitespace-only text leaves nothing |

## Left out

- GPU work: every `cle` kernel, `push`/`pull`, the measurements and the touch and distance
  matrices. Their results are opaque values (data handles, minimum and maximum intensity).
- Qt, napari and magicgui plumbing:
  - dock widgets, hide/show, event connections, auto-call toggling, clipboard and dialogs;
  - the widget created by `make_flexible_gui`;
  - the `set_choices` assignment to a widget (its choice list is modelled by `LayerChoices`);
  - the widget set-up of `initialise_root_functions`.
- File writes, `os.system("jupyter nbconvert …")` and `os.path.abspath`. The text that would
  be written is modelled; writing it is not.
- Float formatting: contrast limits, `str(proximal_distance)` and other printed numbers are
  opaque texts.
- `inspect.signature` and `eval` type coercion are replaced by the operation catalogue:
  parameter names and kinds, the positional count, and whether an operation comes from
  `pyclesperanto_prototype`.
- `find_function` and `cle.operation` are a map from operation name to operation. An unknown
  name is absent from the map, and the code that would then raise is modelled as failing.
- `_export/_base_generator.py` is not part of this model. The newer exporters take the
  visible template of `_ScriptGeneratorBase.py` as their base.
- The base generator of the older package is not part of this model. Its `_comment` is taken
  as the identity.
- Truthiness: `if input1:` and `if op:` are read as "is present". A layer that Python
  considers false is not distinguished.
- napari's renaming of layers with duplicate names is not modelled. `str(layer)` is the
  layer's name.
- Timepoint slicing and 3D-to-2D squeezing in `call_op` are not modelled; the device inputs
  are the layers' data handles.
- The recursion limit of the older Python script generator is a depth budget. A cyclic
  follower graph ends in failure rather than a `RecursionError`.
- In the Operations, WorkflowIO, NeighborhoodStatistics and AdvancedStatistics modules,
  Python dictionaries are sequences of (key, value) pairs with distinct keys, in insertion
  order. Assistant keeps its graph and its name table as Dafny maps, where only membership
  and lookup matter.
- WorkflowIO.LoadRemainingWorkflow: the loop is bounded by an iteration budget (`fuel`).
  The original can run forever when a queued step's sources never appear, because the step
  is re-queued on every pass. `StuckNeverFinishes` shows such a run uses up every budget.
- WorkflowIO.SignatureKwargs: returns the keyword defaults rather than the `Signature` of the
  `partial`; the signature object is reflection.
- WorkflowIO.Drop10: the dock and widget names derived from step names are modelled.
- WorkflowIO.ProcessFollower: the docked widget's call (`widget()`) is a dock event. Its layer
  lookup by source widget is not modelled: the widget always adds or updates
  "Result of <name>", and a function returning None is not modelled.
- AdvancedStatistics.AvgItems: states only the number of assignments; their keys and values
  are stated by `AvgItemsGet` and `AvgItemsKeep`.
- AdvancedStatistics.RegionPropsWithNeighborhoodData: the `min_label` trimming of the
  distance matrix and of the touching-neighbour counts acts on values, which are opaque. Only
  whether the label image holds a label, which decides the ValueError, is modelled.
- CategoryWidget.CallOpSpec: a `KeyError` from a missing keyword argument, a slot index past
  the end of a slot list and the `return` of nothing are one outcome, None.
- CategoryWidget.ShowResult: the scale adjustment and the image colormap and blending are
  not modelled.
- Operations.Run: colormaps of added layers are carried as values; the measure widget
  (`regionprops_table` and docking) is left out.
- Pipeline.ReprAll: string arguments go through `StrRepr`, with its one gap below.
- Pipeline.StrRepr: characters past U+007F are written as they are; Python's `repr` also
  escapes the non-printable ones among them (`\x85`, `\u2028` and the like).
- AdvancedStatistics.RegpropsFromSourceCases: `_advanced_statistics.py` imports neither `cle`,
  `np` nor `da`, so as written every call stops with a NameError; the model gives the
  behaviour with those imports in place.
- AdvancedStatistics.RegionPropsWithNeighborhoodData: same missing imports as above; the model
  assumes them.
- ScriptWalk.ExecuteSpec: the source's doubled lookup `cle.operation(cle.operation(...))` is
  read as one lookup of the dialog's operation; the Qt widget classes it tests are not imported
  either, which the model does not separate from the missing `cle`.

## Findings

| source | as written | input that shows it | evidently intended | confidence | as-written member | corrected member |
|---|---|---|---|---|---|---|
| napari_pyclesperanto_assistant/_gui/_Assistant.py:266-268 | `args[:nargs]` with `nargs = num_positional_args(op) - 1 - len(inputs)`; a negative bound counts from the end | literal arguments ["1", "2"] and nargs = -1 keep ["1"] | no literal argument when the operation has no room for one | not executed | Assistant.SliceAsWrittenKeepsUnused | Assistant.KeepArgs |
| napari_pyclesperanto_assistant/_operations/_operations.py:332-338 | the grid has `len(first column)` rows, but values go to rows 1 to len, so the last value of each column falls outside the grid | the table {"area": ["12"]} shows "area" and not "12" | one header row plus one row per value | not executed | Operations.LastValueNotShown | Operations.EveryValueShown |
| napari_pyclesperanto_assistant/_export/_jython.py:52-114 | the import line of a plain function is built into `command`, and the assignment `image{n} = ` is later put in front of all of it | a plain function `my_filter` whose one parameter holds a layer gives the line `image1 = from my_module import my_filter` | the import line first, then the buffer line and the assigned call | not executed | ExportJython.AsWrittenExample | ExportJython.CorrectedImportFirst |
| pyclesperanto_assistant/_scriptgenerators/_PythonScriptGenerator.py:1-33 | only the base generator is imported, yet `_execute` calls `cle.operation`, so every layer with a dialog raises NameError when it is reached | a file layer and a `gaussian_blur` result whose input1 is that layer | `import pyclesperanto_prototype as cle` at the top of the module | not executed | ScriptWalk.AsWrittenFailsIff | ScriptWalk.GenerateSucceeds |
| napari_pyclesperanto_assistant/_export/_export.py:28-31 | `filename.endswith(...)` runs before the `filename is not None` guard | no file name (None) raises instead of skipping the write | a missing name writes nothing | not executed | Export.AsWrittenMissingNameRaises | Export.ExportNotebookOutcome |
