# flexCE: Bravo yield conversion, SNIa DTD selector and batch configuration

This project is a Dafny model of three sequential pieces of the flexCE
galactic chemical-evolution code:

- **Bravo SNIa yield conversion** (`flexCE/calc_yields/bravo_yields.py`).
  - The script reads `DDT_Yields_Z.dat` line by line. A line containing `DDT`
    is a header `<model> <metallicity>`. Every other line is a row of
    `symbol: yield` items separated by three spaces.
  - It fills `data[model][metallicity]` and keeps the first row's symbols as
    `bravo_el`.
  - It maps each element onto its most abundant solar isotope (`snia_sym`).
  - It builds one yield vector per model and metallicity over the general
    species list.
  - Modules `PyStr` (the Python string operations the script uses),
    `BravoParse` (the reader) and `BravoYields` (the mapping and the
    vectors).
  - The reading loop, the item loop, the isotope search, `argmax` and the
    vector loops are methods with loop invariants. Each is proved against
    a specification function or predicate (`Read`/`ReadKinds`,
    `ParseItems`, `Dominant`, `IsYieldVector`, `YieldTable`).
- **SNIa delay-time-distribution selector** (`flexce/snia.py`, module
  `Snia`).
  - `snia_dtd` normalises `kwargs` and builds `{'func': func, 'k': kwargs}`.
  - It dispatches on the four names and answers a `TypeError` of the
    chosen kernel with the valid-keywords help text.
  - The kernels are a parameter of type `Callee`. Its default,
    `DocumentedCallee`, accepts exactly the keywords the help text lists.
- **Batch driver** (`flexce_batch.py`, module `Batch`).
  - `ChemevoModel` is a class with the 27 parameter fields.
  - `initialize_model` with its declared defaults is the method
    `InitializeModel`. The two ways of constructing a model are
    constructors: the base one, and `Dwarf` for `DwarfModel`.
  - `write_config` is a pure function from the parameter record to the
    file's lines. The lines are described by a layout of headings, fixed
    lines, settings and blank lines.

Three details of `snia_dtd` that the model keeps:

- `snia_dtd` catches a `TypeError`, prints the help text and returns
  normally; it does not raise an error of its own.
- The help text gives `single_degenerate` "no keywords".
- The `prompt_delayed` help line has two spaces before `min_snia_time`.

## Model

Three constants carry source data and have no row of their own:

- `Batch.Defaults` holds the defaults declared at flexce_batch.py:9-18. `InitializeModel` takes its parameter defaults from it, and `BindFields`, `BindGet` and `DwarfConfig` state how it is used.
- `Batch.DwarfDefaults` holds the eleven defaults declared at flexce_batch.py:126-128 over `Defaults`. `DwarfConfig` and the `Dwarf` constructor take their parameter defaults from it.
- `Snia.ValidKeywords` is the help text of flexce/snia.py:43-49. `ValidKeywordsListsModel` and `DocumentedRejection` state what it holds.

| member | source | states |
|---|---|---|
| PyStr.Strip | flexCE/calc_yields/bravo_yields.py:39 | `strip()` yields a slice of the line that neither starts nor ends with whitespace; everything cut off on either side is whitespace |
| PyStr.StripUnpadded | flexCE/calc_yields/bravo_yields.py:39 | a string without surrounding whitespace is its own `strip()` |
| PyStr.SplitWhitespace | flexCE/calc_yields/bravo_yields.py:39 | every piece of `split()` is non-empty and whitespace-free |
| PyStr.SplitWhitespaceBlank | flexCE/calc_yields/bravo_yields.py:39 | `split()` gives no piece exactly when the string is all whitespace |
| PyStr.SplitWhitespaceSkip | flexCE/calc_yields/bravo_yields.py:39 | leading whitespace of any kind is skipped |
| PyStr.SplitWhitespaceCons | flexCE/calc_yields/bravo_yields.py:39 | a token followed by the end or by whitespace is the first piece, and the rest is split on; with `SplitWhitespaceBlank` and `SplitWhitespaceSkip` this fixes `split()` on every string |
| PyStr.SplitWhitespaceJoin | flexCE/calc_yields/bravo_yields.py:39 | splitting space-joined tokens on whitespace gives the tokens back |
| PyStr.Contains | flexCE/calc_yields/bravo_yields.py:38 | `sub in s` holds exactly when `sub` occurs at some index of `s` |
| PyStr.Find | flexCE/calc_yields/bravo_yields.py:38 | the first index at which the separator occurs, or none when it never occurs |
| PyStr.ContainsExtends | flexCE/calc_yields/bravo_yields.py:38 | a substring of `s` is a substring of any extension of `s` |
| PyStr.SplitOn | flexCE/calc_yields/bravo_yields.py:44-48 | `split(sep)` gives at least one piece, and each piece but the last is cut at the first occurrence of `sep` after it (the leftmost-cut rule) |
| PyStr.SplitOnJoin | flexCE/calc_yields/bravo_yields.py:44-48 | joining the pieces of `split(sep)` with `sep` restores the string, and no piece contains `sep`; with the leftmost-cut rule of `SplitOn` the pieces are exactly Python's |
| PyStr.ContainsPart | flexce/snia.py:43-49 | every non-empty piece of a concatenated text occurs in it |
| BravoParse.ParseItem | flexCE/calc_yields/bravo_yields.py:48-50 | an item succeeds exactly when it splits into two on `': '` and the second piece parses as a float; the symbol is the first piece and the yield is that float |
| BravoParse.ParseItems | flexCE/calc_yields/bravo_yields.py:44-50 | a row succeeds exactly when every item does; the symbol and yield lists then have one entry per item, in line order |
| BravoParse.ParseItemsPrefixFailure | flexCE/calc_yields/bravo_yields.py:47-50 | the first bad item decides the row's error; later items do not matter |
| BravoParse.ReadRow | flexCE/calc_yields/bravo_yields.py:44-50 | the item loop appending to `tmp_sym` and `tmp_yld` computes `ParseItems` |
| BravoParse.RowOf | flexCE/calc_yields/bravo_yields.py:44-50 | a row line is stripped, cut at every three-space separator and parsed item by item; `ParseItems` states the result |
| BravoParse.Classify | flexCE/calc_yields/bravo_yields.py:38-50 | a line is a header, split on whitespace, or a row; `ClassifyHeader` states the test |
| BravoParse.IsHeader | flexCE/calc_yields/bravo_yields.py:38 | the test `'DDT' in line`; `ClassifyHeader` states that it holds exactly when `DDT` occurs in the line |
| BravoParse.HeaderTokens | flexCE/calc_yields/bravo_yields.py:39 | `line.strip().split()`; `HeaderTokensOf` states that `model + ' ' + met` gives `[model, met]` |
| BravoParse.ClassifyHeader | flexCE/calc_yields/bravo_yields.py:38 | a line is a header exactly when `DDT` occurs in it |
| BravoParse.Classified | flexCE/calc_yields/bravo_yields.py:37-38 | each line is classified on its own, in file order |
| BravoParse.ReadKinds | flexCE/calc_yields/bravo_yields.py:36-53 | every state reachable by reading has an entry in `data` for its current model |
| BravoParse.Apply | flexCE/calc_yields/bravo_yields.py:38-53 | one pass of the loop body keeps the current model present in `data`; `HeaderEffect`, `RowEffect` and `BadRowEffect` state its effect on every kind of line |
| BravoParse.Read | flexCE/calc_yields/bravo_yields.py:36-53 | the whole file read from the empty state; the lemmas on `ReadKinds` state its properties |
| BravoParse.HeaderEffect | flexCE/calc_yields/bravo_yields.py:38-42 | a header succeeds exactly when it has two tokens, and otherwise raises `HeaderArity`; the two tokens become the current model and metallicity; a first header of a model adds `{model: {met: {}}}`, a later one leaves `data` unchanged; `bravo_el` is untouched |
| BravoParse.RowEffect | flexCE/calc_yields/bravo_yields.py:43-53 | a row before any header raises; otherwise it replaces the current model and metallicity's entry by its yields, changes no other model, keeps the set of models, and sets `bravo_el` only if it was unset |
| BravoParse.BadRowEffect | flexCE/calc_yields/bravo_yields.py:44-50 | a row whose items do not parse raises that error, even before any header: the items are split and converted before the `data` lookup of line 53 |
| BravoParse.ReadPrefixFailure | flexCE/calc_yields/bravo_yields.py:36-53 | a line that raises ends the reading: the result is that error whatever follows |
| BravoParse.ReadPrefixSuccess | flexCE/calc_yields/bravo_yields.py:36-53 | a file read without error is read without error up to every line |
| BravoParse.FirstRow | flexCE/calc_yields/bravo_yields.py:51-52 | the index of the first non-header line, with only headers before it, or none when all lines are headers |
| BravoParse.ElementsOfFirstRow | flexCE/calc_yields/bravo_yields.py:51-52 | `bravo_el` is the symbol list of the first row, and unset when there is no row |
| BravoParse.ElementsFixed | flexCE/calc_yields/bravo_yields.py:51-52 | once set, `bravo_el` is never changed by a later line |
| BravoParse.ReadNeverRemoves | flexCE/calc_yields/bravo_yields.py:40-42 | no line removes a model or a metallicity entry created by an earlier line |
| BravoParse.LastRowWins | flexCE/calc_yields/bravo_yields.py:53 | the entry of a model and metallicity holds the yields of the last row read under that header |
| BravoParse.HeaderLine | flexCE/calc_yields/bravo_yields.py:38-39 | a line `model + ' ' + met` of two tokens, the model containing `DDT`, is a header with exactly those tokens |
| BravoParse.HeaderTokensOf | flexCE/calc_yields/bravo_yields.py:39 | `strip().split()` of `model + ' ' + met` is `[model, met]` |
| BravoParse.ReadYields | flexCE/calc_yields/bravo_yields.py:36-53 | the reading loop computes `Read`: the state after the last line, or the error of the first line that raises |
| BravoParse.ReadStep | flexCE/calc_yields/bravo_yields.py:37 | reading one more line applies that line to the state reached so far |
| BravoParse.ReadLine | flexCE/calc_yields/bravo_yields.py:38-53 | one pass of the loop body computes the effect `Apply` of the classified line |
| BravoYields.StripDigits | flexCE/calc_yields/bravo_yields.py:75 | the result contains no digit |
| BravoYields.StripDigitsAppend | flexCE/calc_yields/bravo_yields.py:75 | digit stripping distributes over concatenation |
| BravoYields.StripDigitsChar | flexCE/calc_yields/bravo_yields.py:75 | a digit is dropped and any other character is kept; with `StripDigitsAppend`, exactly the digits are removed and the rest keeps its order |
| BravoYields.StripDigitsNoDigits | flexCE/calc_yields/bravo_yields.py:75 | a string without digits is unchanged, so stripping is idempotent |
| BravoYields.StripDigitsOnlyDigits | flexCE/calc_yields/bravo_yields.py:75 | a string of digits strips to the empty string |
| BravoYields.StripMassNumber | flexCE/calc_yields/bravo_yields.py:75-76 | an element symbol followed by a mass number strips to the element symbol |
| BravoYields.DominantUnique | flexCE/calc_yields/bravo_yields.py:78 | an element has at most one dominant isotope |
| BravoYields.IsotopesOf | flexCE/calc_yields/bravo_yields.py:72-77 | `ind_tmp` holds exactly the indices of the isotopes whose stripped name is the element, in increasing order |
| BravoYields.ArgMax | flexCE/calc_yields/bravo_yields.py:78 | an empty selection has no maximum; otherwise the result is a selected index with the largest abundance, and every earlier selected index has a strictly smaller abundance |
| BravoYields.DominantIsotope | flexCE/calc_yields/bravo_yields.py:72-79 | no result exactly when the element has no isotope; otherwise the first most abundant isotope of the element |
| BravoYields.DominantIsotopes | flexCE/calc_yields/bravo_yields.py:70-81 | succeeds exactly when every element has an isotope; otherwise fails on the first element without one; on success `snia_sym` has one entry per element, naming its dominant isotope |
| BravoYields.FirstIndex | flexCE/calc_yields/bravo_yields.py:98 | the first position of a species in `snia_sym` |
| BravoYields.MzName | flexCE/calc_yields/bravo_yields.py:94 | the key `'_z'.join((mname, met))`; `MzNameInjective` states that it tells the columns apart |
| BravoYields.MzNameInjective | flexCE/calc_yields/bravo_yields.py:94 | distinct model and metallicity pairs give distinct keys `model + '_z' + met` |
| BravoYields.YieldVector | flexCE/calc_yields/bravo_yields.py:95-98 | the vector has one entry per species; a species not in `snia_sym` gets 0, any other the yield at its first position in `snia_sym` |
| BravoYields.FrameErrorLength | flexCE/calc_yields/bravo_yields.py:83-86 | whether the four DataFrames can be built depends on `snia_sym` only through its length |
| BravoYields.FrameError | flexCE/calc_yields/bravo_yields.py:83-86 | no error exactly when each of the four models is present with yield lists as long as `snia_sym`; otherwise the error of the first model that is not |
| BravoYields.AddColumn | flexCE/calc_yields/bravo_yields.py:94-98 | storing one column's vector adds that key only and leaves the other vectors in place |
| BravoYields.AddModel | flexCE/calc_yields/bravo_yields.py:93-98 | after a model's columns, its keys and vectors are in the table next to those of the models before it, and no other key is |
| BravoYields.BuildYields | flexCE/calc_yields/bravo_yields.py:83-98 | fails exactly when a DataFrame cannot be built, with that error; otherwise the table has one key per model and metallicity column, each holding that column's yield vector, and no other key |
| BravoYields.ConvertBravo | flexCE/calc_yields/bravo_yields.py:36-98 | succeeds exactly when the file reads without error, has a row, every element of `bravo_el` has an isotope and every column of the four models has one yield per element. Otherwise it reports the read error, `NoRows`, `NoIsotope` of the first element without an isotope, or the DataFrame error, in the order the script meets them. A success consists of the dominant isotope names of `bravo_el` and the table of yield vectors of the data read |
| Snia.Name | flexce/snia.py:33-39 | each distribution's name is non-empty |
| Snia.Recognise | flexce/snia.py:33-40 | a recognised name is the name of its distribution; nothing is recognised exactly when the name is none of the four |
| Snia.RecogniseName | flexce/snia.py:33-40 | each of the four names dispatches to its own distribution |
| Snia.NameInjective | flexce/snia.py:33-39 | different distributions have different names |
| Snia.NoneToEmptyDict | flexce/snia.py:30 | `None` becomes `{}`; a given dictionary is kept |
| Snia.Keywords | flexce/snia.py:44-48 | `single_degenerate` has no keywords and each other distribution has three |
| Snia.HelpLine | flexce/snia.py:44-48 | one line of the help text; `HelpLineListsKeywords` states that it lists its distribution's keywords |
| Snia.ValidKeywordsListsModel | flexce/snia.py:43-49 | the help text contains the help line of every one of the four distributions |
| Snia.HelpLineListsKeywords | flexce/snia.py:44-48 | each listed keyword appears on its distribution's help line |
| Snia.SniaDtd | flexce/snia.py:19-51 | the call escapes exactly when the chosen kernel raises something other than `TypeError`; otherwise it returns `{'func': func, 'k': normalised kwargs}` on every path, calls only the kernel its name selects, and prints the help text exactly when that kernel raised `TypeError` |
| Snia.DocumentedCallee | flexce/snia.py:44-48 | the reference kernel never escapes, and returns exactly when every keyword passed is listed for its distribution |
| Snia.DefaultSelection | flexce/snia.py:19-34 | with no arguments and the documented kernels, the exponential kernel is called with `{}` and nothing is printed |
| Snia.ParamIgnoresCallee | flexce/snia.py:31-51 | the returned dictionary and the kernel called do not depend on how the kernel call ends |
| Snia.UnknownNameIsRecorded | flexce/snia.py:33-51 | any other name calls nothing, prints nothing and returns the dictionary |
| Snia.DocumentedRejection | flexce/snia.py:41-49 | with the documented kernels, the help text is printed exactly when an unlisted keyword is passed, and it then contains the chosen distribution's line |
| Snia.UndefinedKernels | flexce/snia.py:34-40 | the kernels as flexce/snia.py provides them: every call raises an exception other than `TypeError` |
| Snia.UndefinedKernelsEscape | flexce/snia.py:34-41 | with the kernels as the module provides them, every recognised name escapes |
| Batch.ArgNameAccepted | flexce_batch.py:9-18 | every parameter's keyword is accepted by `initialize_model`; `ArgNames` is defined as the set of those keywords, so every accepted keyword is some parameter's |
| Batch.Bound | flexce_batch.py:9-18 | the record a call with the given keywords binds; `BindGet` states each field |
| Batch.BindKeywords | flexce_batch.py:5-7 | `**init_param` binds exactly when `init_param` is a dictionary whose keys are all parameter names; a `None` is reported as not a mapping |
| Batch.BindFields | flexce_batch.py:7-18 | after binding, a passed keyword sets its parameter and every other parameter takes its declared default |
| Batch.BindGet | flexce_batch.py:9-46 | the bound record holds, for each parameter, the value passed for it or its default |
| Batch.DwarfConfig | flexce_batch.py:126-133 | the eleven dwarf values are set from the arguments and every other parameter keeps its base default |
| Batch.Digits | flexce_batch.py:96 | the decimal representation is a non-empty string of digits that starts with `0` exactly when the number is 0, so it has no leading zero |
| Batch.DigitsRoundTrip | flexce_batch.py:96 | reading the decimal digits back gives the number |
| Batch.IntText | flexce_batch.py:96 | `str()` of an int; `IntTextRoundTrip` states what it writes |
| Batch.IntTextRoundTrip | flexce_batch.py:96 | `str(n)` starts with `-` exactly when `n` is negative, and the digits after the sign read back as the magnitude of `n` |
| Batch.Key | flexce_batch.py:64-108 | the key each parameter is written under; `SettingLine` states its use |
| Batch.Format | flexce_batch.py:64-108 | `'{}'.format` writes a string as itself, an int in decimal and a float by the float format |
| Batch.ParamLine | flexce_batch.py:64-108 | one `'key = {}'.format(value)` line; `SettingLine` states its form |
| Batch.RenderLine | flexce_batch.py:50-109 | how one layout entry is printed; `SettingLine` and `PreambleFixed` state it |
| Batch.Opening | flexce_batch.py:50-62 | the fixed opening block; `OpeningHeadings`, `OpeningSettings` and `PreambleFixed` state what it holds |
| Batch.StarFormationParams | flexce_batch.py:101-108 | the parameters of the star-formation section; `ShapeLines` states when the shape parameters are among them |
| Batch.Gaussian | flexce_batch.py:104 | the test `self.sf_func == 'sf_gauss'`; `ShapeLines` states that the shape lines are written exactly when it holds |
| Batch.SettingsOf | flexce_batch.py:64-108 | one setting line per parameter, in order |
| Batch.Section | flexce_batch.py:63-109 | a section has two lines more than it has parameters: its heading and the blank line after its settings |
| Batch.ParamSections | flexce_batch.py:63-109 | the parameter sections take 41 lines for a Gaussian law, else 38 |
| Batch.Layout | flexce_batch.py:50-109 | the file is 54 lines for a Gaussian law, else 51 |
| Batch.ConfigLines | flexce_batch.py:48-109 | one line per layout entry, each the rendering of that entry |
| Batch.HeadingsAppend | flexce_batch.py:50-109 | the headings of consecutive runs of lines are the headings of each run, in order |
| Batch.SettingsAppend | flexce_batch.py:50-109 | the settings of consecutive runs of lines are the settings of each run, in order |
| Batch.SectionHeading | flexce_batch.py:63-109 | a section has exactly one heading, its own |
| Batch.SectionSettings | flexce_batch.py:63-109 | a section sets exactly its parameters, in order |
| Batch.OpeningHeadings | flexce_batch.py:50-53 | the opening block's headings are `Simulation` and `Yields` |
| Batch.OpeningSettings | flexce_batch.py:50-62 | the opening block sets no parameter |
| Batch.ParamSectionHeadings | flexce_batch.py:63-101 | the parameter sections are headed, in order, Basic parameters, Mass bins, SNIa DTD, Inflow, Outflow, Warm ISM and Star Formation Law |
| Batch.SectionOrder | flexce_batch.py:50-109 | the file's headings are exactly the nine section names, in order, for every record |
| Batch.SettingsInOrder | flexce_batch.py:64-108 | the parameters are written section by section, in declaration order within each section |
| Batch.ShapeLines | flexce_batch.py:104-107 | `sf_f1`, `sf_tau1` and `sf_tau2` are written if and only if `sf_func == 'sf_gauss'` |
| Batch.ShapeNotFixed | flexce_batch.py:63-99 | no section before the star-formation law writes a shape parameter |
| Batch.SettingsMembership | flexce_batch.py:64-108 | a parameter is among a run's settings exactly when the run has its setting line |
| Batch.PreambleFixed | flexce_batch.py:50-62 | the first thirteen lines are the fixed simulation and yields block, whatever the record and the float format |
| Batch.SettingLine | flexce_batch.py:64-108 | every parameter line is its key, ` = ` and its formatted value |
| Batch.DwarfOutflowLine | flexce_batch.py:96-127 | the dwarf model's outflow is written as the integer `10` |
| Batch.ChemevoModel.constructor | flexce_batch.py:5-7 | the file name is stored and the fields hold the record bound from `init_param` |
| Batch.ChemevoModel.Dwarf | flexce_batch.py:126-133 | the file name is stored and the fields hold the dwarf record: eleven overrides over the base defaults |
| Batch.ChemevoModel.InitializeModel | flexce_batch.py:9-46 | each of the 27 arguments, or its declared default, is stored in its field and the file name is unchanged |
| Batch.ChemevoModel.SetRunAndMassBins | flexce_batch.py:20-28 | the first nine fields are set from the arguments and no other field is touched |
| Batch.ChemevoModel.SetDtdAndInflow | flexce_batch.py:29-37 | the next nine fields are set from the arguments and no other field is touched |
| Batch.ChemevoModel.SetOutflowAndStarFormation | flexce_batch.py:38-46 | the last nine fields are set from the arguments and no other field is touched |
| Batch.ChemevoModel.WriteConfig | flexce_batch.py:48-109 | the file is 54 lines when `sf_func` is `'sf_gauss'`, else 51, and starts with the fixed thirteen-line block |

## Left out

- File and process I/O is not modelled:
  - opening the yield file, `species.txt` and `Solar_isotopes.txt`;
  - `pickle_write`;
  - the path setup and `sys.path` change;
  - opening the configuration file and printing to it;
  - `run()` with `os.chdir` and `os.system`.
  - The yield file arrives as a sequence of lines. The species list and the isotope table are parameters. The configuration file is the sequence of lines `write_config` prints.
- `DwarfModel.__init__` ends by calling `run()`; the `Dwarf` constructor stops after setting the fields.
- pandas and numpy are replaced by sequences and maps:
  - `read_csv`;
  - the DataFrame construction;
  - the `.ix` lookup;
  - `np.where`;
  - `np.zeros`.
- The yield script ends with a comment announcing metallicity-dependent yields. No code follows it, so there is nothing to model.
- Float parsing and printing are parameters: `FloatParser` for `float(...)` and `FloatFormat` for `'{}'.format` of a float. Yields and abundances are reals, used only for comparison.
- `BravoYields.ArgMax`: returns the isotope's index in the table, the label that `np.argmax` gives on a Series in the pandas versions the script was written for. The position-versus-label behaviour of later pandas versions is not modelled.
- `BravoYields.FrameError`: treats a model whose metallicity entry is still the `{}` placed by its first header as an error (`BadColumn`). pandas would build a column of missing values there.
- `BravoYields.IsDigit`: covers the ASCII digits only, where `str.isdigit` also accepts other Unicode digits.
- The DTD kernels themselves (`snia_dtd_exp`, `snia_dtd_powerlaw`, `snia_dtd_prompt_delayed`, `snia_dtd_single_degenerate`) are not in the repository files modelled here. They are the `Callee` parameter; how they end is all the model knows of them.
- `flexce.utils.none_to_empty_dict` is not part of this model. `Snia.NoneToEmptyDict` models it by its name.
- `traceback.print_exc()` and the `None` that `print` writes for its result are not modelled. Only the help text is recorded as the printed message.
- `Batch.ChemevoModel.constructor`: requires the binding to succeed. A `None` or an unknown keyword makes `initialize_model(**init_param)` raise `TypeError`, and a constructor cannot model an exception. `Batch.BindKeywords` states when that happens.
- `Batch.ChemevoModel.SetRunAndMassBins`, `SetDtdAndInflow` and `SetOutflowAndStarFormation` have no counterpart in the source: the 27 assignments of `initialize_model` (flexce_batch.py:20-46) are split into three methods of nine only to keep each proof small. `InitializeModel` calls them in the source's order.
- `PyStr.IsSpace` follows Python 3's `str.isspace`, which also counts 0x1C-0x1F, 0x85, 0xA0 and the other Unicode space characters as whitespace. Under Python 2, `strip()` and `split()` on a byte string treat only ASCII space, tab, newline, carriage return, vertical tab and form feed as whitespace; that behaviour is not modelled.
- Python's class inheritance is expressed by a second constructor, `Dwarf`, of the same class.
- Parameter values are floats, ints or strings (`Batch.Value`). A Python `bool` or any other object passed as a parameter is not modelled.
- Float defaults are exact reals (`0.135`, `1e-9`), not IEEE doubles.

## Findings

| source | as written | input that shows it | evidently intended | confidence | as-written member | corrected member |
|---|---|---|---|---|---|---|
| flexce/snia.py:34-41 | the four kernels are called by names that flexce/snia.py neither defines nor imports. Each call raises `NameError`, which `except TypeError` does not catch | `snia_dtd()` with its defaults: the call of `snia_dtd_exp` raises `NameError` | the named kernel is called, and its `TypeError` on a bad keyword is answered with the help text | high (not executed) | Snia.UndefinedKernelsEscape | Snia.DocumentedRejection |
