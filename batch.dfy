/** The batch driver's model record: the chemical-evolution parameters
    with their declared defaults, the dwarf-galaxy variant that overrides
    some of them, and the configuration file written from the record. */
module Batch {
  import opened Wrappers

  /** A parameter value as Python holds it: a float, an int or a string. */
  datatype Value = Float(x: real) | Int(n: int) | Text(s: string)

  /** The 27 parameters of `initialize_model`, in declaration order. */
  datatype Param =
    Radius
    | TimeTot
    | Dt
    | Imf
    | MbinsLow
    | MbinsHigh
    | DmLow
    | DmHigh
    | DtdFunc
    | DtdMinTime
    | DtdTime
    | DtdSniaFrac
    | Inflow
    | MInit
    | M1
    | B1
    | InflowAbPattern
    | InflowMet
    | OutflowSource
    | Outflow
    | Warmgas
    | SfFunc
    | SfNu1
    | SfF1
    | SfTau1
    | SfTau2
    | NKslaw

  /** The parameter record, one field per parameter. */
  datatype Config = Config(
    radius: Value,
    timeTot: Value,
    dt: Value,
    imf: Value,
    mbinsLow: Value,
    mbinsHigh: Value,
    dmLow: Value,
    dmHigh: Value,
    dtdFunc: Value,
    dtdMinTime: Value,
    dtdTime: Value,
    dtdSniaFrac: Value,
    inflow: Value,
    mInit: Value,
    m1: Value,
    b1: Value,
    inflowAbPattern: Value,
    inflowMet: Value,
    outflowSource: Value,
    outflow: Value,
    warmgas: Value,
    sfFunc: Value,
    sfNu1: Value,
    sfF1: Value,
    sfTau1: Value,
    sfTau2: Value,
    nKslaw: Value)

  /** The field of `c` that holds parameter `p`. */
  function Get(c: Config, p: Param): Value {
    match p
    case Radius => c.radius
    case TimeTot => c.timeTot
    case Dt => c.dt
    case Imf => c.imf
    case MbinsLow => c.mbinsLow
    case MbinsHigh => c.mbinsHigh
    case DmLow => c.dmLow
    case DmHigh => c.dmHigh
    case DtdFunc => c.dtdFunc
    case DtdMinTime => c.dtdMinTime
    case DtdTime => c.dtdTime
    case DtdSniaFrac => c.dtdSniaFrac
    case Inflow => c.inflow
    case MInit => c.mInit
    case M1 => c.m1
    case B1 => c.b1
    case InflowAbPattern => c.inflowAbPattern
    case InflowMet => c.inflowMet
    case OutflowSource => c.outflowSource
    case Outflow => c.outflow
    case Warmgas => c.warmgas
    case SfFunc => c.sfFunc
    case SfNu1 => c.sfNu1
    case SfF1 => c.sfF1
    case SfTau1 => c.sfTau1
    case SfTau2 => c.sfTau2
    case NKslaw => c.nKslaw
  }

  /** The keyword under which `initialize_model` takes each parameter. */
  function ArgName(p: Param): string {
    match p
    case Radius => "radius"
    case TimeTot => "time_tot"
    case Dt => "dt"
    case Imf => "imf"
    case MbinsLow => "mbins_low"
    case MbinsHigh => "mbins_high"
    case DmLow => "dm_low"
    case DmHigh => "dm_high"
    case DtdFunc => "dtd_func"
    case DtdMinTime => "dtd_min_time"
    case DtdTime => "dtd_time"
    case DtdSniaFrac => "dtd_snia_frac"
    case Inflow => "inflow"
    case MInit => "m_init"
    case M1 => "M1"
    case B1 => "b1"
    case InflowAbPattern => "inflow_ab_pattern"
    case InflowMet => "inflow_met"
    case OutflowSource => "outflow_source"
    case Outflow => "outflow"
    case Warmgas => "warmgas"
    case SfFunc => "sf_func"
    case SfNu1 => "sf_nu1"
    case SfF1 => "sf_f1"
    case SfTau1 => "sf_tau1"
    case SfTau2 => "sf_tau2"
    case NKslaw => "N_kslaw"
  }

  /** Every parameter, in the order `initialize_model` declares them. */
  const AllParams: seq<Param> := [Radius, TimeTot, Dt, Imf, MbinsLow, MbinsHigh, DmLow, DmHigh, DtdFunc, DtdMinTime, DtdTime, DtdSniaFrac, Inflow, MInit, M1, B1, InflowAbPattern, InflowMet, OutflowSource, Outflow, Warmgas, SfFunc, SfNu1, SfF1, SfTau1, SfTau2, NKslaw]

  /** The keywords `initialize_model` accepts: exactly the parameters'
      keywords. */
  const ArgNames: set<string> := set p | p in AllParams :: ArgName(p)

  /** Every parameter's keyword is accepted. */
  lemma ArgNameAccepted(p: Param)
    ensures ArgName(p) in ArgNames
  {
    assert p in AllParams;
  }

  /** The key each parameter is written under in the configuration file. */
  function Key(p: Param): string {
    match p
    case Radius => "initialize_radius"
    case TimeTot => "initialize_time_tot"
    case Dt => "initialize_dt"
    case Imf => "initialize_imf"
    case MbinsLow => "mass_bins_low"
    case MbinsHigh => "mass_bins_high"
    case DmLow => "mass_bins_dm_low"
    case DmHigh => "mass_bins_dm_high"
    case DtdFunc => "snia_dtd_func"
    case DtdMinTime => "snia_dtd_min_snia_time"
    case DtdTime => "snia_dtd_timescale"
    case DtdSniaFrac => "snia_dtd_snia_fraction"
    case Inflow => "inflows_func"
    case MInit => "inflows_mgas_init"
    case M1 => "inflows_M1"
    case B1 => "inflows_b1"
    case InflowAbPattern => "inflows_inflow_ab_pattern"
    case InflowMet => "inflows_inflow_metallicity"
    case OutflowSource => "outflows_outflow_source"
    case Outflow => "outflows_eta_outflow"
    case Warmgas => "warmgasres_warmgas"
    case SfFunc => "sf_func"
    case SfNu1 => "sf_nu1"
    case SfF1 => "sf_f1"
    case SfTau1 => "sf_tau1"
    case SfTau2 => "sf_tau2"
    case NKslaw => "sf_N_kslaw"
  }

  /** The defaults declared by `initialize_model`. */
  const Defaults: Config := Config(
    Float(10.0),
    Float(12000.0),
    Float(30.0),
    Text("kroupa"),
    Float(0.1),
    Float(100.0),
    Float(0.1),
    Float(1.0),
    Text("exponential"),
    Float(150.0),
    Float(1500.0),
    Float(0.135),
    Text("exp"),
    Float(2e10),
    Float(4e11),
    Float(6000.0),
    Text("bbns"),
    Float(1.0),
    Text("ism"),
    Float(2.5),
    Text("False"),
    Text("constant"),
    Float(1e-9),
    Float(0.0),
    Float(0.0),
    Float(0.0),
    Float(1.0))

  /** A keyword-argument dictionary. */
  type Kwargs = map<string, Value>

  /** Why `initialize_model(**init_param)` raises `TypeError`. */
  datatype BindError = NotAMapping | UnexpectedKeyword

  /** The value a call with keywords `kw` gives parameter `p`: the one
      passed, or the declared default. */
  function Arg(kw: Kwargs, p: Param): Value {
    if ArgName(p) in kw then kw[ArgName(p)] else Get(Defaults, p)
  }

  /** The record a call with keywords `kw` binds. */
  function Bound(kw: Kwargs): Config {
    Config(
      Arg(kw, Radius),
      Arg(kw, TimeTot),
      Arg(kw, Dt),
      Arg(kw, Imf),
      Arg(kw, MbinsLow),
      Arg(kw, MbinsHigh),
      Arg(kw, DmLow),
      Arg(kw, DmHigh),
      Arg(kw, DtdFunc),
      Arg(kw, DtdMinTime),
      Arg(kw, DtdTime),
      Arg(kw, DtdSniaFrac),
      Arg(kw, Inflow),
      Arg(kw, MInit),
      Arg(kw, M1),
      Arg(kw, B1),
      Arg(kw, InflowAbPattern),
      Arg(kw, InflowMet),
      Arg(kw, OutflowSource),
      Arg(kw, Outflow),
      Arg(kw, Warmgas),
      Arg(kw, SfFunc),
      Arg(kw, SfNu1),
      Arg(kw, SfF1),
      Arg(kw, SfTau1),
      Arg(kw, SfTau2),
      Arg(kw, NKslaw))
  }

  /** Passing `init_param` as `**init_param` to `initialize_model`: `None`
      is not a mapping, an unknown keyword is rejected, and every other
      keyword sets its parameter while the rest keep their defaults. */
  function BindKeywords(initParam: Option<Kwargs>): (r: Result<Config, BindError>)
    ensures r.Success? <==> initParam.Some? && initParam.value.Keys <= ArgNames
    ensures r.Failure? ==> (r.error == NotAMapping <==> initParam.None?)
  {
    match initParam
    case None => Failure(NotAMapping)
    case Some(kw) =>
      if !(kw.Keys <= ArgNames) then Failure(UnexpectedKeyword)
      else Success(Bound(kw))
  }

  /** A successful binding sets each parameter to the value passed for it,
      or to its default. */
  lemma BindFields(initParam: Option<Kwargs>, p: Param)
    requires BindKeywords(initParam).Success?
    ensures ArgName(p) in initParam.value ==> Get(BindKeywords(initParam).value, p) == initParam.value[ArgName(p)]
    ensures ArgName(p) !in initParam.value ==> Get(BindKeywords(initParam).value, p) == Get(Defaults, p)
  {
    BindGet(initParam.value, p);
  }

  lemma BindGet(kw: Kwargs, p: Param)
    ensures Get(Bound(kw), p) == Arg(kw, p)
  {
    match p
    case Radius =>
    case TimeTot =>
    case Dt =>
    case Imf =>
    case MbinsLow =>
    case MbinsHigh =>
    case DmLow =>
    case DmHigh =>
    case DtdFunc =>
    case DtdMinTime =>
    case DtdTime =>
    case DtdSniaFrac =>
    case Inflow =>
    case MInit =>
    case M1 =>
    case B1 =>
    case InflowAbPattern =>
    case InflowMet =>
    case OutflowSource =>
    case Outflow =>
    case Warmgas =>
    case SfFunc =>
    case SfNu1 =>
    case SfF1 =>
    case SfTau1 =>
    case SfTau2 =>
    case NKslaw =>
  }

  /** The parameters the dwarf-galaxy model sets. */
  const DwarfParams: set<Param> := {TimeTot, Inflow, MInit, M1, B1, Outflow, SfFunc, SfNu1, SfF1, SfTau1, SfTau2}

  /** The defaults declared by `DwarfModel.__init__`: eleven values over
      the base defaults. */
  const DwarfDefaults: Config := Defaults.(
    timeTot := Float(13000.0),
    inflow := Text("te-t"),
    mInit := Float(3e9),
    m1 := Float(6e10),
    b1 := Float(2500.0),
    outflow := Int(10),
    sfFunc := Text("constant"),
    sfNu1 := Float(1e-11),
    sfF1 := Float(0.0),
    sfTau1 := Float(0.0),
    sfTau2 := Float(0.0))

  /** The record of the dwarf-galaxy model: its eleven values over the
      base defaults. */
  function DwarfConfig(
    timeTot: Value := DwarfDefaults.timeTot,
    inflow: Value := DwarfDefaults.inflow,
    mInit: Value := DwarfDefaults.mInit,
    m1: Value := DwarfDefaults.m1,
    b1: Value := DwarfDefaults.b1,
    outflow: Value := DwarfDefaults.outflow,
    sfFunc: Value := DwarfDefaults.sfFunc,
    sfNu1: Value := DwarfDefaults.sfNu1,
    sfF1: Value := DwarfDefaults.sfF1,
    sfTau1: Value := DwarfDefaults.sfTau1,
    sfTau2: Value := DwarfDefaults.sfTau2): (c: Config)
    ensures forall p :: p !in DwarfParams ==> Get(c, p) == Get(Defaults, p)
    ensures c.timeTot == timeTot
    ensures c.inflow == inflow
    ensures c.mInit == mInit
    ensures c.m1 == m1
    ensures c.b1 == b1
    ensures c.outflow == outflow
    ensures c.sfFunc == sfFunc
    ensures c.sfNu1 == sfNu1
    ensures c.sfF1 == sfF1
    ensures c.sfTau1 == sfTau1
    ensures c.sfTau2 == sfTau2
  {
    Defaults.(timeTot := timeTot, inflow := inflow, mInit := mInit, m1 := m1, b1 := b1, outflow := outflow, sfFunc := sfFunc, sfNu1 := sfNu1, sfF1 := sfF1, sfTau1 := sfTau1, sfTau2 := sfTau2)
  }

  /** Decimal digits of a natural number, most significant first, with no
      leading zero: only 0 is written starting with `0`. */
  function Digits(n: nat): (s: string)
    ensures |s| > 0 && forall i :: 0 <= i < |s| ==> '0' <= s[i] <= '9'
    ensures s[0] == '0' <==> n == 0
    decreases n
  {
    if n < 10 then [(n as int + '0' as int) as char]
    else Digits(n / 10) + [(n % 10 + '0' as int) as char]
  }

  /** The number a string of decimal digits stands for. */
  function DigitsValue(s: string): nat
    requires forall i :: 0 <= i < |s| ==> '0' <= s[i] <= '9'
  {
    if s == [] then 0 else 10 * DigitsValue(s[..|s| - 1]) + (s[|s| - 1] as int - '0' as int)
  }

  /** Reading the digits back gives the number. */
  lemma {:induction false} DigitsRoundTrip(n: nat)
    ensures DigitsValue(Digits(n)) == n
    decreases n
  {
    if n >= 10 {
      DigitsRoundTrip(n / 10);
      var s := Digits(n);
      assert s[..|s| - 1] == Digits(n / 10);
    }
  }

  /** `str(n)` for a Python int: an optional minus sign and the digits. */
  function IntText(n: int): string {
    if n < 0 then "-" + Digits(-n) else Digits(n)
  }

  /** `str(n)` starts with a minus sign exactly for a negative number, and
      reading the digits after it back gives the number. */
  lemma IntTextRoundTrip(n: int)
    ensures |IntText(n)| > 0
    ensures IntText(n)[0] == '-' <==> n < 0
    ensures n < 0 ==> DigitsValue(IntText(n)[1..]) == -n
    ensures n >= 0 ==> DigitsValue(IntText(n)) == n
  {
    if n < 0 {
      DigitsRoundTrip(-n);
      assert IntText(n)[1..] == Digits(-n);
    } else {
      DigitsRoundTrip(n);
    }
  }

  /** How a float is printed; Python's shortest round-trip `repr` is not
      part of this model. */
  type FloatFormat = real -> string

  /** `'{}'.format(v)`: a string as itself, an int in decimal, a float as
      `showFloat` prints it. */
  function Format(v: Value, showFloat: FloatFormat): (s: string)
    ensures v.Text? ==> s == v.s
    ensures v.Int? ==> s == IntText(v.n)
    ensures v.Float? ==> s == showFloat(v.x)
  {
    match v
    case Float(x) => showFloat(x)
    case Int(n) => IntText(n)
    case Text(t) => t
  }

  /** The line written for parameter `p`. */
  function ParamLine(c: Config, showFloat: FloatFormat, p: Param): string {
    Key(p) + " = " + Format(Get(c, p), showFloat)
  }

  /** What one line of the configuration file holds. */
  datatype LineSpec =
    | Heading(name: string)   // `# name`
    | Comment(text: string)   // a fixed line
    | Setting(param: Param)   // `key = value` for a parameter
    | Blank                   // an empty line

  /** A line of the file for record `c`. */
  function RenderLine(c: Config, showFloat: FloatFormat, spec: LineSpec): string {
    match spec
    case Heading(name) => "# " + name
    case Comment(text) => text
    case Setting(p) => ParamLine(c, showFloat, p)
    case Blank => ""
  }

  /** The star-formation law has a Gaussian shape. */
  predicate Gaussian(c: Config) {
    c.sfFunc == Text("sf_gauss")
  }

  /** The opening block: the simulation heading and the fixed yield
      sets. */
  function Opening(): seq<LineSpec> {
    [Heading("Simulation"), Comment("# Fiducial"), Blank,
     Heading("Yields"),
     Comment("yields_snii_dir = limongi06/iso_yields/"),
     Comment("yields_agb_dir = karakas10/iso_yields/"),
     Comment("yields_snia_dir = iwamoto99/"),
     Comment("yields_rprocess_dir = cescutti06/"),
     Comment("yields_sprocess_dir = busso01/"),
     Comment("yields_snia_model = w70"),
     Comment("yields_r_elements = Ba, Eu"),
     Comment("yields_s_elements = Ba,"),
     Blank]
  }

  /** One setting line per parameter, in order. */
  function SettingsOf(ps: seq<Param>): (specs: seq<LineSpec>)
    ensures |specs| == |ps|
    ensures forall i :: 0 <= i < |ps| ==> specs[i] == Setting(ps[i])
  {
    seq(|ps|, i requires 0 <= i < |ps| => Setting(ps[i]))
  }

  /** A parameter section: its heading, its settings and a blank line. */
  function Section(name: string, ps: seq<Param>): (specs: seq<LineSpec>)
    ensures |specs| == |ps| + 2
  {
    [Heading(name)] + SettingsOf(ps) + [Blank]
  }

  /** The parameters of each section, in the order they are written; the
      shape parameters of the star-formation law only for a Gaussian law. */
  const BasicParams: seq<Param> := [Radius, TimeTot, Dt, Imf]
  const MassBinParams: seq<Param> := [MbinsLow, MbinsHigh, DmLow, DmHigh]
  const DtdParams: seq<Param> := [DtdFunc, DtdMinTime, DtdTime, DtdSniaFrac]
  const InflowParams: seq<Param> := [Inflow, MInit, M1, B1, InflowAbPattern, InflowMet]
  const OutflowParams: seq<Param> := [OutflowSource, Outflow]
  const WarmParams: seq<Param> := [Warmgas]
  function StarFormationParams(c: Config): seq<Param> {
    [SfFunc, SfNu1] + (if Gaussian(c) then [SfF1, SfTau1, SfTau2] else []) + [NKslaw]
  }

  /** The parameter sections, in the order they are written. */
  function ParamSections(c: Config): (specs: seq<LineSpec>)
    ensures |specs| == if Gaussian(c) then 41 else 38
  {
    Section("Basic parameters", BasicParams)
    + Section("Mass bins", MassBinParams)
    + Section("SNIa DTD", DtdParams)
    + Section("Inflow", InflowParams)
    + Section("Outflow", OutflowParams)
    + Section("Warm ISM", WarmParams)
    + Section("Star Formation Law", StarFormationParams(c))
  }

  /** The lines `write_config` prints, in order. */
  function Layout(c: Config): (specs: seq<LineSpec>)
    ensures |specs| == if Gaussian(c) then 54 else 51
  {
    Opening() + ParamSections(c)
  }

  /** `write_config`: the lines of the configuration file for record `c`,
      one per `print`. */
  function ConfigLines(c: Config, showFloat: FloatFormat): (lines: seq<string>)
    ensures |lines| == |Layout(c)|
    ensures forall i :: 0 <= i < |lines| ==> lines[i] == RenderLine(c, showFloat, Layout(c)[i])
  {
    seq(|Layout(c)|, i requires 0 <= i < |Layout(c)| => RenderLine(c, showFloat, Layout(c)[i]))
  }

  /** The headings of a run of lines, in order. */
  function Headings(specs: seq<LineSpec>): seq<string> {
    if specs == [] then []
    else (if specs[0].Heading? then [specs[0].name] else []) + Headings(specs[1..])
  }

  /** The parameters set by a run of lines, in order. */
  function Settings(specs: seq<LineSpec>): seq<Param> {
    if specs == [] then []
    else (if specs[0].Setting? then [specs[0].param] else []) + Settings(specs[1..])
  }

  lemma {:induction false} HeadingsAppend(a: seq<LineSpec>, b: seq<LineSpec>)
    ensures Headings(a + b) == Headings(a) + Headings(b)
    decreases |a|
  {
    if a == [] {
      assert a + b == b;
    } else {
      assert (a + b)[0] == a[0];
      assert (a + b)[1..] == a[1..] + b;
      HeadingsAppend(a[1..], b);
    }
  }

  lemma {:induction false} SettingsAppend(a: seq<LineSpec>, b: seq<LineSpec>)
    ensures Settings(a + b) == Settings(a) + Settings(b)
    decreases |a|
  {
    if a == [] {
      assert a + b == b;
    } else {
      assert (a + b)[0] == a[0];
      assert (a + b)[1..] == a[1..] + b;
      SettingsAppend(a[1..], b);
    }
  }

  /** A run of settings has no heading. */
  lemma {:induction false} HeadingsOfSettings(ps: seq<Param>)
    ensures Headings(SettingsOf(ps)) == []
    decreases |ps|
  {
    if ps != [] {
      assert SettingsOf(ps)[1..] == SettingsOf(ps[1..]);
      HeadingsOfSettings(ps[1..]);
    }
  }

  /** A run of settings sets its parameters, in order. */
  lemma {:induction false} SettingsOfSettings(ps: seq<Param>)
    ensures Settings(SettingsOf(ps)) == ps
    decreases |ps|
  {
    if ps != [] {
      assert SettingsOf(ps)[1..] == SettingsOf(ps[1..]);
      SettingsOfSettings(ps[1..]);
    }
  }

  /** A section has one heading, its own. */
  lemma SectionHeading(name: string, ps: seq<Param>)
    ensures Headings(Section(name, ps)) == [name]
  {
    HeadingsAppend([Heading(name)] + SettingsOf(ps), [Blank]);
    HeadingsAppend([Heading(name)], SettingsOf(ps));
    HeadingsOfSettings(ps);
  }

  /** A section sets exactly its parameters, in order. */
  lemma SectionSettings(name: string, ps: seq<Param>)
    ensures Settings(Section(name, ps)) == ps
  {
    SettingsAppend([Heading(name)] + SettingsOf(ps), [Blank]);
    SettingsAppend([Heading(name)], SettingsOf(ps));
    SettingsOfSettings(ps);
  }

  /** The section headings, in the order they are written. */
  const OpeningNames: seq<string> := ["Simulation", "Yields"]
  const ParamSectionNames: seq<string> := ["Basic parameters", "Mass bins", "SNIa DTD", "Inflow", "Outflow",
                                           "Warm ISM", "Star Formation Law"]
  const SectionNames: seq<string> := OpeningNames + ParamSectionNames

  /** The opening block has the simulation and yields headings. */
  lemma OpeningHeadings()
    ensures Headings(Opening()) == OpeningNames
  {
  }

  /** The opening block sets no parameter. */
  lemma OpeningSettings()
    ensures Settings(Opening()) == []
  {
  }

  /** The parameter sections carry their own headings, in order. */
  lemma ParamSectionHeadings(c: Config)
    ensures Headings(ParamSections(c)) == ParamSectionNames
  {
    var s1 := Section("Basic parameters", BasicParams);
    var s2 := Section("Mass bins", MassBinParams);
    var s3 := Section("SNIa DTD", DtdParams);
    var s4 := Section("Inflow", InflowParams);
    var s5 := Section("Outflow", OutflowParams);
    var s6 := Section("Warm ISM", WarmParams);
    var s7 := Section("Star Formation Law", StarFormationParams(c));
    HeadingsAppend(s1 + s2 + s3 + s4 + s5 + s6, s7);
    HeadingsAppend(s1 + s2 + s3 + s4 + s5, s6);
    HeadingsAppend(s1 + s2 + s3 + s4, s5);
    HeadingsAppend(s1 + s2 + s3, s4);
    HeadingsAppend(s1 + s2, s3);
    HeadingsAppend(s1, s2);
    SectionHeading("Basic parameters", BasicParams);
    SectionHeading("Mass bins", MassBinParams);
    SectionHeading("SNIa DTD", DtdParams);
    SectionHeading("Inflow", InflowParams);
    SectionHeading("Outflow", OutflowParams);
    SectionHeading("Warm ISM", WarmParams);
    SectionHeading("Star Formation Law", StarFormationParams(c));
  }

  /** The file has exactly the nine section headings, in order, whatever
      the record. */
  lemma SectionOrder(c: Config)
    ensures Headings(Layout(c)) == SectionNames
  {
    HeadingsAppend(Opening(), ParamSections(c));
    OpeningHeadings();
    ParamSectionHeadings(c);
  }

  /** The settings are written section by section, each parameter once. */
  lemma SettingsInOrder(c: Config)
    ensures Settings(Layout(c)) == BasicParams + MassBinParams + DtdParams + InflowParams
                                   + OutflowParams + WarmParams + StarFormationParams(c)
  {
    SettingsAppend(Opening(), ParamSections(c));
    OpeningSettings();
    var s1 := Section("Basic parameters", BasicParams);
    var s2 := Section("Mass bins", MassBinParams);
    var s3 := Section("SNIa DTD", DtdParams);
    var s4 := Section("Inflow", InflowParams);
    var s5 := Section("Outflow", OutflowParams);
    var s6 := Section("Warm ISM", WarmParams);
    var s7 := Section("Star Formation Law", StarFormationParams(c));
    SettingsAppend(s1 + s2 + s3 + s4 + s5 + s6, s7);
    SettingsAppend(s1 + s2 + s3 + s4 + s5, s6);
    SettingsAppend(s1 + s2 + s3 + s4, s5);
    SettingsAppend(s1 + s2 + s3, s4);
    SettingsAppend(s1 + s2, s3);
    SettingsAppend(s1, s2);
    SectionSettings("Basic parameters", BasicParams);
    SectionSettings("Mass bins", MassBinParams);
    SectionSettings("SNIa DTD", DtdParams);
    SectionSettings("Inflow", InflowParams);
    SectionSettings("Outflow", OutflowParams);
    SectionSettings("Warm ISM", WarmParams);
    SectionSettings("Star Formation Law", StarFormationParams(c));
  }

  /** The lines of the shape parameters are written exactly for a Gaussian
      star-formation law. */
  lemma ShapeLines(c: Config)
    ensures SfF1 in Settings(Layout(c)) <==> Gaussian(c)
    ensures SfTau1 in Settings(Layout(c)) <==> Gaussian(c)
    ensures SfTau2 in Settings(Layout(c)) <==> Gaussian(c)
  {
    SettingsInOrder(c);
    ShapeNotFixed();
    var sf := StarFormationParams(c);
    assert SfF1 in sf <==> Gaussian(c);
    assert SfTau1 in sf <==> Gaussian(c);
    assert SfTau2 in sf <==> Gaussian(c);
  }

  /** No section before the star-formation law sets a shape parameter. */
  lemma ShapeNotFixed()
    ensures var fixed := BasicParams + MassBinParams + DtdParams + InflowParams + OutflowParams + WarmParams;
      SfF1 !in fixed && SfTau1 !in fixed && SfTau2 !in fixed
  {
  }

  /** A parameter is among the settings of a run of lines exactly when its
      setting line is. */
  lemma {:induction false} SettingsMembership(specs: seq<LineSpec>)
    ensures forall p :: p in Settings(specs) <==> Setting(p) in specs
    decreases |specs|
  {
    if specs != [] {
      SettingsMembership(specs[1..]);
      assert specs == [specs[0]] + specs[1..];
    }
  }

  /** The opening block: the simulation heading and the yield sets. */
  const Preamble: seq<string> := [
    "# Simulation",
    "# Fiducial",
    "",
    "# Yields",
    "yields_snii_dir = limongi06/iso_yields/",
    "yields_agb_dir = karakas10/iso_yields/",
    "yields_snia_dir = iwamoto99/",
    "yields_rprocess_dir = cescutti06/",
    "yields_sprocess_dir = busso01/",
    "yields_snia_model = w70",
    "yields_r_elements = Ba, Eu",
    "yields_s_elements = Ba,",
    ""]

  /** The first thirteen lines are the same for every record and every
      float format. */
  lemma PreambleFixed(c: Config, showFloat: FloatFormat)
    ensures ConfigLines(c, showFloat)[..13] == Preamble
  {
    var lines := ConfigLines(c, showFloat);
    forall i | 0 <= i < 13
      ensures lines[i] == RenderLine(c, showFloat, Opening()[i])
    {
      assert Layout(c)[i] == Opening()[i];
    }
    assert RenderLine(c, showFloat, Heading("Simulation")) == "# Simulation";
    assert RenderLine(c, showFloat, Heading("Yields")) == "# Yields";
  }

  /** A setting's line is its key, ` = ` and its formatted value. */
  lemma SettingLine(c: Config, showFloat: FloatFormat, i: nat)
    requires i < |Layout(c)| && Layout(c)[i].Setting?
    ensures ConfigLines(c, showFloat)[i] == Key(Layout(c)[i].param) + " = " + Format(Get(c, Layout(c)[i].param), showFloat)
  {
  }

  /** A dwarf-galaxy file writes its outflow as the integer `10`. */
  lemma DwarfOutflowLine(showFloat: FloatFormat)
    ensures ParamLine(DwarfConfig(), showFloat, Outflow) == "outflows_eta_outflow = 10"
  {
    assert IntText(10) == "10";
  }

  /** A model run: the name of its configuration file and the 27
      parameters, held as fields that `InitializeModel` sets. */
  class ChemevoModel {
    var filename: string
    var radius: Value
    var timeTot: Value
    var dt: Value
    var imf: Value
    var mbinsLow: Value
    var mbinsHigh: Value
    var dmLow: Value
    var dmHigh: Value
    var dtdFunc: Value
    var dtdMinTime: Value
    var dtdTime: Value
    var dtdSniaFrac: Value
    var inflow: Value
    var mInit: Value
    var m1: Value
    var b1: Value
    var inflowAbPattern: Value
    var inflowMet: Value
    var outflowSource: Value
    var outflow: Value
    var warmgas: Value
    var sfFunc: Value
    var sfNu1: Value
    var sfF1: Value
    var sfTau1: Value
    var sfTau2: Value
    var nKslaw: Value

    /** The parameter record the fields hold. */
    function Record(): Config
      reads this
    {
      Config(radius, timeTot, dt, imf, mbinsLow, mbinsHigh, dmLow, dmHigh, dtdFunc, dtdMinTime, dtdTime, dtdSniaFrac, inflow, mInit, m1, b1, inflowAbPattern, inflowMet, outflowSource, outflow, warmgas, sfFunc, sfNu1, sfF1, sfTau1, sfTau2, nKslaw)
    }

    /** `ChemevoModel(filename, init_param)`: the file name is stored and
        `init_param` is passed, as keywords, to `InitializeModel`. */
    constructor (filename: string, initParam: Option<Kwargs>)
      requires BindKeywords(initParam).Success?
      ensures this.filename == filename
      ensures Record() == BindKeywords(initParam).value
    {
      this.filename := filename;
      new;
      var c := BindKeywords(initParam).value;
      InitializeModel(c.radius, c.timeTot, c.dt, c.imf, c.mbinsLow, c.mbinsHigh, c.dmLow, c.dmHigh, c.dtdFunc, c.dtdMinTime, c.dtdTime, c.dtdSniaFrac, c.inflow, c.mInit, c.m1, c.b1, c.inflowAbPattern, c.inflowMet, c.outflowSource, c.outflow, c.warmgas, c.sfFunc, c.sfNu1, c.sfF1, c.sfTau1, c.sfTau2, c.nKslaw);
    }

    /** `DwarfModel(filename, ...)`: the file name is stored and the eleven
        dwarf-galaxy values are passed to `InitializeModel`, the other
        parameters taking their base defaults. */
    constructor Dwarf(filename: string,
                      timeTot: Value := DwarfDefaults.timeTot,
                      inflow: Value := DwarfDefaults.inflow,
                      mInit: Value := DwarfDefaults.mInit,
                      m1: Value := DwarfDefaults.m1,
                      b1: Value := DwarfDefaults.b1,
                      outflow: Value := DwarfDefaults.outflow,
                      sfFunc: Value := DwarfDefaults.sfFunc,
                      sfNu1: Value := DwarfDefaults.sfNu1,
                      sfF1: Value := DwarfDefaults.sfF1,
                      sfTau1: Value := DwarfDefaults.sfTau1,
                      sfTau2: Value := DwarfDefaults.sfTau2)
      ensures this.filename == filename
      ensures Record() == DwarfConfig(timeTot, inflow, mInit, m1, b1, outflow, sfFunc, sfNu1, sfF1, sfTau1, sfTau2)
    {
      this.filename := filename;
      new;
      InitializeModel(timeTot := timeTot, inflow := inflow, mInit := mInit, m1 := m1, b1 := b1, outflow := outflow, sfFunc := sfFunc, sfNu1 := sfNu1, sfF1 := sfF1, sfTau1 := sfTau1, sfTau2 := sfTau2);
    }

    /** `initialize_model`: each argument, or its declared default, is
        stored in the field of the same name; the file name is kept. */
    method InitializeModel(
      radius: Value := Defaults.radius,
      timeTot: Value := Defaults.timeTot,
      dt: Value := Defaults.dt,
      imf: Value := Defaults.imf,
      mbinsLow: Value := Defaults.mbinsLow,
      mbinsHigh: Value := Defaults.mbinsHigh,
      dmLow: Value := Defaults.dmLow,
      dmHigh: Value := Defaults.dmHigh,
      dtdFunc: Value := Defaults.dtdFunc,
      dtdMinTime: Value := Defaults.dtdMinTime,
      dtdTime: Value := Defaults.dtdTime,
      dtdSniaFrac: Value := Defaults.dtdSniaFrac,
      inflow: Value := Defaults.inflow,
      mInit: Value := Defaults.mInit,
      m1: Value := Defaults.m1,
      b1: Value := Defaults.b1,
      inflowAbPattern: Value := Defaults.inflowAbPattern,
      inflowMet: Value := Defaults.inflowMet,
      outflowSource: Value := Defaults.outflowSource,
      outflow: Value := Defaults.outflow,
      warmgas: Value := Defaults.warmgas,
      sfFunc: Value := Defaults.sfFunc,
      sfNu1: Value := Defaults.sfNu1,
      sfF1: Value := Defaults.sfF1,
      sfTau1: Value := Defaults.sfTau1,
      sfTau2: Value := Defaults.sfTau2,
      nKslaw: Value := Defaults.nKslaw)
      modifies this
      ensures filename == old(filename)
      ensures this.radius == radius
      ensures this.timeTot == timeTot
      ensures this.dt == dt
      ensures this.imf == imf
      ensures this.mbinsLow == mbinsLow
      ensures this.mbinsHigh == mbinsHigh
      ensures this.dmLow == dmLow
      ensures this.dmHigh == dmHigh
      ensures this.dtdFunc == dtdFunc
      ensures this.dtdMinTime == dtdMinTime
      ensures this.dtdTime == dtdTime
      ensures this.dtdSniaFrac == dtdSniaFrac
      ensures this.inflow == inflow
      ensures this.mInit == mInit
      ensures this.m1 == m1
      ensures this.b1 == b1
      ensures this.inflowAbPattern == inflowAbPattern
      ensures this.inflowMet == inflowMet
      ensures this.outflowSource == outflowSource
      ensures this.outflow == outflow
      ensures this.warmgas == warmgas
      ensures this.sfFunc == sfFunc
      ensures this.sfNu1 == sfNu1
      ensures this.sfF1 == sfF1
      ensures this.sfTau1 == sfTau1
      ensures this.sfTau2 == sfTau2
      ensures this.nKslaw == nKslaw
    {
      SetRunAndMassBins(radius, timeTot, dt, imf, mbinsLow, mbinsHigh, dmLow, dmHigh, dtdFunc);
      SetDtdAndInflow(dtdMinTime, dtdTime, dtdSniaFrac, inflow, mInit, m1, b1, inflowAbPattern, inflowMet);
      SetOutflowAndStarFormation(outflowSource, outflow, warmgas, sfFunc, sfNu1, sfF1, sfTau1, sfTau2, nKslaw);
    }

    /** Nine of the assignments of `initialize_model`: the run, the IMF, the mass bins and the DTD form. */
    method SetRunAndMassBins(radius: Value, timeTot: Value, dt: Value, imf: Value, mbinsLow: Value, mbinsHigh: Value, dmLow: Value, dmHigh: Value, dtdFunc: Value)
      modifies this`radius, this`timeTot, this`dt, this`imf, this`mbinsLow, this`mbinsHigh, this`dmLow, this`dmHigh, this`dtdFunc
      ensures this.radius == radius
      ensures this.timeTot == timeTot
      ensures this.dt == dt
      ensures this.imf == imf
      ensures this.mbinsLow == mbinsLow
      ensures this.mbinsHigh == mbinsHigh
      ensures this.dmLow == dmLow
      ensures this.dmHigh == dmHigh
      ensures this.dtdFunc == dtdFunc
    {
      this.radius := radius;
      this.timeTot := timeTot;
      this.dt := dt;
      this.imf := imf;
      this.mbinsLow := mbinsLow;
      this.mbinsHigh := mbinsHigh;
      this.dmLow := dmLow;
      this.dmHigh := dmHigh;
      this.dtdFunc := dtdFunc;
    }

    /** Nine of the assignments of `initialize_model`: the DTD times and fraction and the inflow. */
    method SetDtdAndInflow(dtdMinTime: Value, dtdTime: Value, dtdSniaFrac: Value, inflow: Value, mInit: Value, m1: Value, b1: Value, inflowAbPattern: Value, inflowMet: Value)
      modifies this`dtdMinTime, this`dtdTime, this`dtdSniaFrac, this`inflow, this`mInit, this`m1, this`b1, this`inflowAbPattern, this`inflowMet
      ensures this.dtdMinTime == dtdMinTime
      ensures this.dtdTime == dtdTime
      ensures this.dtdSniaFrac == dtdSniaFrac
      ensures this.inflow == inflow
      ensures this.mInit == mInit
      ensures this.m1 == m1
      ensures this.b1 == b1
      ensures this.inflowAbPattern == inflowAbPattern
      ensures this.inflowMet == inflowMet
    {
      this.dtdMinTime := dtdMinTime;
      this.dtdTime := dtdTime;
      this.dtdSniaFrac := dtdSniaFrac;
      this.inflow := inflow;
      this.mInit := mInit;
      this.m1 := m1;
      this.b1 := b1;
      this.inflowAbPattern := inflowAbPattern;
      this.inflowMet := inflowMet;
    }

    /** Nine of the assignments of `initialize_model`: the outflow, the warm gas and the star-formation law. */
    method SetOutflowAndStarFormation(outflowSource: Value, outflow: Value, warmgas: Value, sfFunc: Value, sfNu1: Value, sfF1: Value, sfTau1: Value, sfTau2: Value, nKslaw: Value)
      modifies this`outflowSource, this`outflow, this`warmgas, this`sfFunc, this`sfNu1, this`sfF1, this`sfTau1, this`sfTau2, this`nKslaw
      ensures this.outflowSource == outflowSource
      ensures this.outflow == outflow
      ensures this.warmgas == warmgas
      ensures this.sfFunc == sfFunc
      ensures this.sfNu1 == sfNu1
      ensures this.sfF1 == sfF1
      ensures this.sfTau1 == sfTau1
      ensures this.sfTau2 == sfTau2
      ensures this.nKslaw == nKslaw
    {
      this.outflowSource := outflowSource;
      this.outflow := outflow;
      this.warmgas := warmgas;
      this.sfFunc := sfFunc;
      this.sfNu1 := sfNu1;
      this.sfF1 := sfF1;
      this.sfTau1 := sfTau1;
      this.sfTau2 := sfTau2;
      this.nKslaw := nKslaw;
    }

    /** `write_config`: the lines written for the current fields. */
    function WriteConfig(showFloat: FloatFormat): (lines: seq<string>)
      reads this
      ensures |lines| == if sfFunc == Text("sf_gauss") then 54 else 51
      ensures lines[..13] == Preamble
    {
      PreambleFixed(Record(), showFloat);
      ConfigLines(Record(), showFloat)
    }
  }
}
