/** The SNIa delay-time-distribution selector: it records the chosen
    distribution and its keyword arguments, calls the matching kernel with
    those arguments, and reports the valid keywords when the call rejects
    them. */
module Snia {
  import opened Wrappers
  import opened PyStr

  /** A keyword argument's value (the kernels take numbers). */
  datatype KwValue = Num(x: real) | Text(s: string) | Flag(b: bool)

  /** A keyword-argument dictionary. */
  type Kwargs = map<string, KwValue>

  /** The returned dictionary `{'func': func, 'k': kwargs}`. */
  datatype SniaParam = SniaParam(func: string, k: Kwargs)

  /** The four distributions the selector knows. */
  datatype DtdModel = Exponential | PowerLaw | PromptDelayed | SingleDegenerate

  /** How a kernel call `kernel(**kwargs)` ends. */
  datatype CallEnd = Returned | RaisedTypeError | RaisedOther

  /** The kernels themselves are outside this model: a callee says how the
      call of the kernel for a distribution ends for given keywords. */
  type Callee = (DtdModel, Kwargs) -> CallEnd

  /** What one call of the selector does: the dictionary it returns, the
      kernel it calls (if any) and the keyword help it prints (if any). */
  datatype Outcome = Outcome(param: SniaParam, called: Option<DtdModel>, message: Option<string>)

  /** An exception other than `TypeError` raised by the kernel of `model`
      leaves the selector unhandled. */
  datatype Escaped = Escaped(model: DtdModel)

  /** The name the selector compares `func` against. */
  function Name(m: DtdModel): (s: string)
    ensures |s| > 0
  {
    match m
    case Exponential => "exponential"
    case PowerLaw => "power_law"
    case PromptDelayed => "prompt_delayed"
    case SingleDegenerate => "single_degenerate"
  }

  /** The `if`/`elif` chain on `func`: which kernel, if any, is chosen. */
  function Recognise(func: string): (r: Option<DtdModel>)
    ensures r.Some? ==> Name(r.value) == func
    ensures r.None? <==> forall m: DtdModel :: Name(m) != func
  {
    if func == "exponential" then Some(Exponential)
    else if func == "power_law" then Some(PowerLaw)
    else if func == "prompt_delayed" then Some(PromptDelayed)
    else if func == "single_degenerate" then Some(SingleDegenerate)
    else None
  }

  /** Every distribution is reached through its own name. */
  lemma RecogniseName(m: DtdModel)
    ensures Recognise(Name(m)) == Some(m)
  {
    match m
    case Exponential =>
    case PowerLaw =>
    case PromptDelayed =>
    case SingleDegenerate =>
  }

  /** Distinct distributions have distinct names. */
  lemma NameInjective(m: DtdModel, n: DtdModel)
    requires Name(m) == Name(n)
    ensures m == n
  {
    RecogniseName(m);
    RecogniseName(n);
  }

  /** `none_to_empty_dict`: a missing dictionary becomes `{}`, a given one
      is kept. */
  function NoneToEmptyDict(kwargs: Option<Kwargs>): (k: Kwargs)
    ensures kwargs.None? ==> k == map[]
    ensures kwargs.Some? ==> k == kwargs.value
  {
    match kwargs
    case None => map[]
    case Some(d) => d
  }

  /** The keywords the help text gives for each distribution. */
  function Keywords(m: DtdModel): (ks: seq<string>)
    ensures m == SingleDegenerate <==> ks == []
    ensures m != SingleDegenerate ==> |ks| == 3
  {
    match m
    case Exponential => ["timescale", "min_snia_time", "snia_fraction"]
    case PowerLaw => ["min_snia_time", "nia_per_mstar", "slope"]
    case PromptDelayed => ["A", "B", "min_snia_time"]
    case SingleDegenerate => []
  }

  /** The separator before a distribution's last keyword: the
      prompt-delayed line has two spaces there. */
  function LastSeparator(m: DtdModel): string {
    if m == PromptDelayed then ",  " else ", "
  }

  /** The pieces of one help line: the name, then its keywords separated by
      commas, or `no keywords`. */
  function HelpLineParts(m: DtdModel): seq<string> {
    var ks := Keywords(m);
    if m == SingleDegenerate then [Name(m), ": ", "no keywords", "\n"]
    else [Name(m), ": ", ks[0], ", ", ks[1], LastSeparator(m), ks[2], "\n"]
  }

  /** One line of the help text. */
  function HelpLine(m: DtdModel): string {
    Concat(HelpLineParts(m))
  }

  /** The help text printed after a rejected call: a title and one line per
      distribution, in the order the selector tests them. */
  const ValidKeywords: string :=
    Concat(["\nValid keywords:\n", HelpLine(Exponential), HelpLine(PowerLaw),
            HelpLine(PromptDelayed), HelpLine(SingleDegenerate)])

  /** The help text covers all four distributions. */
  lemma ValidKeywordsListsModel(m: DtdModel)
    ensures Contains(ValidKeywords, HelpLine(m))
  {
    var parts := ["\nValid keywords:\n", HelpLine(Exponential), HelpLine(PowerLaw),
                  HelpLine(PromptDelayed), HelpLine(SingleDegenerate)];
    var i := match m case Exponential => 1 case PowerLaw => 2 case PromptDelayed => 3 case SingleDegenerate => 4;
    assert parts[i] == HelpLine(m);
    assert |Name(m)| > 0;
    assert HelpLine(m) != [];
    ContainsPart(parts, i);
  }

  /** Each keyword the help text gives for a distribution is printed on
      that distribution's line. */
  lemma HelpLineListsKeywords(m: DtdModel, i: nat)
    requires i < |Keywords(m)|
    ensures Contains(HelpLine(m), Keywords(m)[i])
  {
    ContainsPart(HelpLineParts(m), 2 * i + 2);
  }

  /** `snia_dtd(func, kwargs)`: `kwargs` defaults to `{}`, the dictionary
      `{'func': func, 'k': kwargs}` is built before anything can fail, the
      kernel named by `func` (if any) is called with `**kwargs`, a
      `TypeError` from it is caught and answered with the help text, and
      the dictionary is returned. Any other exception escapes. */
  function SniaDtd(func: string := "exponential", kwargs: Option<Kwargs> := None,
                   callee: Callee := DocumentedCallee): (r: Result<Outcome, Escaped>)
    ensures r.Failure? <==> Recognise(func).Some? && callee(Recognise(func).value, NoneToEmptyDict(kwargs)) == RaisedOther
    ensures r.Failure? ==> r.error == Escaped(Recognise(func).value)
    ensures r.Success? ==> r.value.param == SniaParam(func, NoneToEmptyDict(kwargs))
    ensures r.Success? ==> r.value.called == Recognise(func)
    ensures r.Success? ==> (r.value.message.Some? <==>
              Recognise(func).Some? && callee(Recognise(func).value, NoneToEmptyDict(kwargs)) == RaisedTypeError)
    ensures r.Success? && r.value.message.Some? ==> r.value.message.value == ValidKeywords
  {
    var k := NoneToEmptyDict(kwargs);
    var param := SniaParam(func, k);
    match Recognise(func)
    case None => Success(Outcome(param, None, None))
    case Some(m) =>
      match callee(m, k)
      case Returned => Success(Outcome(param, Some(m), None))
      case RaisedTypeError => Success(Outcome(param, Some(m), Some(ValidKeywords)))
      case RaisedOther => Failure(Escaped(m))
  }

  /** A reference kernel that follows the help text: it accepts exactly the
      keywords listed for its distribution, each at most once (a dictionary
      cannot repeat one), and rejects any other with a `TypeError`. */
  function DocumentedCallee(m: DtdModel, k: Kwargs): (e: CallEnd)
    ensures e != RaisedOther
    ensures e == Returned <==> forall key :: key in k ==> key in Keywords(m)
  {
    if forall key :: key in k ==> key in Keywords(m) then Returned else RaisedTypeError
  }

  /** The kernels as the module itself provides them: the four names the
      selector calls are neither defined nor imported in flexce/snia.py, so
      each call ends in a `NameError`, which `except TypeError` lets
      through. */
  function UndefinedKernels(m: DtdModel, k: Kwargs): CallEnd {
    RaisedOther
  }

  /** As written, every recognised name makes the selector raise, so it
      never returns its dictionary for one of the four distributions. */
  lemma UndefinedKernelsEscape(m: DtdModel, kwargs: Option<Kwargs>)
    ensures SniaDtd(Name(m), kwargs, UndefinedKernels) == Failure(Escaped(m))
  {
    RecogniseName(m);
  }

  /** With the defaults, the exponential distribution is chosen with no
      keywords, and nothing is printed. */
  lemma DefaultSelection()
    ensures SniaDtd() == Success(Outcome(SniaParam("exponential", map[]), Some(Exponential), None))
  {
    assert DocumentedCallee(Exponential, map[]) == Returned;
  }

  /** What is returned depends only on `func` and `kwargs`, never on how
      the kernel call ends, as long as it does not escape. */
  lemma ParamIgnoresCallee(func: string, kwargs: Option<Kwargs>, f: Callee, g: Callee)
    requires SniaDtd(func, kwargs, f).Success? && SniaDtd(func, kwargs, g).Success?
    ensures SniaDtd(func, kwargs, f).value.param == SniaDtd(func, kwargs, g).value.param
    ensures SniaDtd(func, kwargs, f).value.called == SniaDtd(func, kwargs, g).value.called
  {
  }

  /** A name other than the four calls nothing, prints nothing and cannot
      fail, whatever the keywords. */
  lemma UnknownNameIsRecorded(func: string, kwargs: Option<Kwargs>, callee: Callee)
    requires forall m: DtdModel :: Name(m) != func
    ensures SniaDtd(func, kwargs, callee) == Success(Outcome(SniaParam(func, NoneToEmptyDict(kwargs)), None, None))
  {
  }

  /** Against the documented kernels, the help text is printed exactly
      when a keyword outside the chosen distribution's list is passed,
      and it then names that keyword's distribution and every valid
      keyword of it. */
  lemma DocumentedRejection(m: DtdModel, kwargs: Kwargs)
    ensures SniaDtd(Name(m), Some(kwargs)).Success?
    ensures SniaDtd(Name(m), Some(kwargs)).value.message.Some? <==> exists key :: key in kwargs && key !in Keywords(m)
    ensures SniaDtd(Name(m), Some(kwargs)).value.message.Some? ==>
              Contains(SniaDtd(Name(m), Some(kwargs)).value.message.value, HelpLine(m))
  {
    RecogniseName(m);
    assert NoneToEmptyDict(Some(kwargs)) == kwargs;
    var r := SniaDtd(Name(m), Some(kwargs));
    assert r.Success? && (r.value.message.Some? <==> DocumentedCallee(m, kwargs) == RaisedTypeError);
    ValidKeywordsListsModel(m);
  }
}
