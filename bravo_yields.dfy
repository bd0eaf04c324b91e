/** The species mapping of flexCE/calc_yields/bravo_yields.py (lines
    55-98): each element of `bravo_el` is mapped to its most abundant solar
    isotope, giving `snia_sym`, and each model and metallicity's yields are
    spread over the `n_species` species of the general species list, zero
    where a species has no Bravo yield. */
module BravoYields {
  import opened Wrappers
  import opened BravoParse

  /** One row of `Solar_isotopes.txt`: an isotope name such as `fe56` and
      its solar abundance by mass. */
  datatype Isotope = Isotope(name: string, ab: real)

  /** Why the script stops after reading the file: it had no row at all
      (iterating `np.array(None)` raises a TypeError), an element has no
      isotope (`np.argmax` of an empty selection raises a ValueError), a
      model is missing from `data` (a KeyError), or one of a model's
      columns is not a yield list as long as `snia_sym` (the DataFrame
      constructor raises a ValueError). */
  datatype YieldError = NoRows | NoIsotope(element: string) | MissingModel(model: string) | BadColumn(model: string)

  const ModelNames: seq<string> := ["DDTa", "DDTc", "DDTe", "DDTf"]

  // ---- removing the mass number from an isotope name ----

  predicate IsDigit(c: char) {
    '0' <= c <= '9'
  }

  /** `''.join([i for i in siso if not i.isdigit()])`. */
  function StripDigits(s: string): (r: string)
    ensures forall k :: 0 <= k < |r| ==> !IsDigit(r[k])
  {
    if s == [] then []
    else (if IsDigit(s[0]) then [] else [s[0]]) + StripDigits(s[1..])
  }

  /** Stripping works character by character: it distributes over
      concatenation, drops a digit and keeps any other character.  Together
      these say it removes exactly the digits and keeps the rest in order. */
  lemma {:induction false} StripDigitsAppend(a: string, b: string)
    ensures StripDigits(a + b) == StripDigits(a) + StripDigits(b)
  {
    if a == [] {
      assert a + b == b;
    } else {
      assert (a + b)[1..] == a[1..] + b;
      StripDigitsAppend(a[1..], b);
    }
  }

  lemma StripDigitsChar(c: char)
    ensures StripDigits([c]) == if IsDigit(c) then [] else [c]
  {
  }

  /** A string without digits is left as it is; in particular stripping
      twice is stripping once. */
  lemma {:induction false} StripDigitsNoDigits(s: string)
    requires forall k :: 0 <= k < |s| ==> !IsDigit(s[k])
    ensures StripDigits(s) == s
  {
    if s != [] {
      StripDigitsNoDigits(s[1..]);
    }
  }

  /** An isotope name made of an element symbol and a mass number strips
      to the element symbol. */
  lemma StripMassNumber(element: string, mass: string)
    requires forall k :: 0 <= k < |element| ==> !IsDigit(element[k])
    requires forall k :: 0 <= k < |mass| ==> IsDigit(mass[k])
    ensures StripDigits(element + mass) == element
  {
    StripDigitsAppend(element, mass);
    StripDigitsNoDigits(element);
    StripDigitsOnlyDigits(mass);
  }

  lemma {:induction false} StripDigitsOnlyDigits(s: string)
    requires forall k :: 0 <= k < |s| ==> IsDigit(s[k])
    ensures StripDigits(s) == []
  {
    if s != [] {
      StripDigitsOnlyDigits(s[1..]);
    }
  }

  // ---- the dominant isotope of an element ----

  /** Isotope `i` belongs to element `el`. */
  predicate Matches(iso: seq<Isotope>, el: string, i: int) {
    0 <= i < |iso| && StripDigits(iso[i].name) == el
  }

  ghost predicate HasIsotope(iso: seq<Isotope>, el: string) {
    exists i :: Matches(iso, el, i)
  }

  /** Isotope `k` is the most abundant isotope of `el`, the first one
      listed when several share the largest abundance. */
  ghost predicate Dominant(iso: seq<Isotope>, el: string, k: int) {
    && Matches(iso, el, k)
    && (forall j :: Matches(iso, el, j) ==> iso[j].ab <= iso[k].ab)
    && (forall j :: 0 <= j < k && Matches(iso, el, j) ==> iso[j].ab < iso[k].ab)
  }

  /** An element has at most one dominant isotope. */
  lemma DominantUnique(iso: seq<Isotope>, el: string, k1: int, k2: int)
    requires Dominant(iso, el, k1) && Dominant(iso, el, k2)
    ensures k1 == k2
  {
  }

  /** The inner loop collecting `ind_tmp`: the indices of the isotopes of
      `el`, in increasing order. */
  method IsotopesOf(el: string, iso: seq<Isotope>) returns (ind: seq<nat>)
    ensures forall k :: 0 <= k < |ind| ==> Matches(iso, el, ind[k])
    ensures forall i :: Matches(iso, el, i) ==> i in ind
    ensures forall a, b :: 0 <= a < b < |ind| ==> ind[a] < ind[b]
  {
    ind := [];
    var ii := 0;
    while ii < |iso|
      invariant 0 <= ii <= |iso|
      invariant forall k :: 0 <= k < |ind| ==> Matches(iso, el, ind[k]) && ind[k] < ii
      invariant forall i :: 0 <= i < ii && Matches(iso, el, i) ==> i in ind
      invariant forall a, b :: 0 <= a < b < |ind| ==> ind[a] < ind[b]
    {
      var elname := StripDigits(iso[ii].name);
      if el == elname {
        ind := ind + [ii];
      }
      ii := ii + 1;
    }
  }

  /** `np.argmax(solar_isotopes.ab[ind_tmp])`: the index (as a label of the
      isotope table) of the first largest abundance among the selected
      isotopes; an empty selection raises. */
  method ArgMax(iso: seq<Isotope>, ind: seq<nat>) returns (r: Option<nat>)
    requires forall k :: 0 <= k < |ind| ==> ind[k] < |iso|
    requires forall a, b :: 0 <= a < b < |ind| ==> ind[a] < ind[b]
    ensures r.None? <==> ind == []
    ensures r.Some? ==> r.value in ind
    ensures r.Some? ==> forall k :: 0 <= k < |ind| ==> iso[ind[k]].ab <= iso[r.value].ab
    ensures r.Some? ==> forall k :: 0 <= k < |ind| && ind[k] < r.value ==> iso[ind[k]].ab < iso[r.value].ab
  {
    if ind == [] {
      return None;
    }
    var best := 0;
    var k := 1;
    while k < |ind|
      invariant 0 <= best < k <= |ind|
      invariant forall j :: 0 <= j < k ==> iso[ind[j]].ab <= iso[ind[best]].ab
      invariant forall j :: 0 <= j < best ==> iso[ind[j]].ab < iso[ind[best]].ab
    {
      if iso[ind[k]].ab > iso[ind[best]].ab {
        best := k;
      }
      k := k + 1;
    }
    r := Some(ind[best]);
  }

  /** `sniaSym` names, element by element, the dominant isotope of each
      element of `bravoEl`. */
  ghost predicate DominantNames(bravoEl: seq<string>, iso: seq<Isotope>, sniaSym: seq<string>) {
    && |sniaSym| == |bravoEl|
    && forall i :: 0 <= i < |bravoEl| ==> exists k :: Dominant(iso, bravoEl[i], k) && sniaSym[i] == iso[k].name
  }

  /** Lines 72-78 for one element: its isotopes, then the first most
      abundant of them; `None` when the element has no isotope. */
  method DominantIsotope(el: string, iso: seq<Isotope>) returns (r: Option<nat>)
    ensures r.None? <==> !HasIsotope(iso, el)
    ensures r.Some? ==> Dominant(iso, el, r.value)
  {
    var indTmp := IsotopesOf(el, iso);
    r := ArgMax(iso, indTmp);
    if r.None? {
      assert !HasIsotope(iso, el);
    } else {
      var k := r.value;
      forall j | Matches(iso, el, j) ensures iso[j].ab <= iso[k].ab {
        var p :| 0 <= p < |indTmp| && indTmp[p] == j;
      }
      forall j | 0 <= j < k && Matches(iso, el, j) ensures iso[j].ab < iso[k].ab {
        var p :| 0 <= p < |indTmp| && indTmp[p] == j;
      }
    }
  }

  /** The loop building `snia_sym`: for each element of `bravo_el`, the name
      of its dominant isotope. */
  method DominantIsotopes(bravoEl: seq<string>, iso: seq<Isotope>) returns (r: Result<seq<string>, YieldError>)
    ensures r.Success? <==> forall i :: 0 <= i < |bravoEl| ==> HasIsotope(iso, bravoEl[i])
    ensures r.Failure? ==> exists i :: (0 <= i < |bravoEl| && !HasIsotope(iso, bravoEl[i]) &&
      (forall j :: 0 <= j < i ==> HasIsotope(iso, bravoEl[j])) && r.error == NoIsotope(bravoEl[i]))
    ensures r.Success? ==> DominantNames(bravoEl, iso, r.value)
  {
    var sniaSym: seq<string> := [];
    ghost var chosen: seq<nat> := [];
    var i := 0;
    while i < |bravoEl|
      invariant 0 <= i <= |bravoEl|
      invariant |sniaSym| == i && |chosen| == i
      invariant forall j :: 0 <= j < i ==> HasIsotope(iso, bravoEl[j])
      invariant forall j :: 0 <= j < i ==> Dominant(iso, bravoEl[j], chosen[j]) && sniaSym[j] == iso[chosen[j]].name
    {
      var indDominant := DominantIsotope(bravoEl[i], iso);
      if indDominant.None? {
        return Failure(NoIsotope(bravoEl[i]));
      }
      sniaSym := sniaSym + [iso[indDominant.value].name];
      chosen := chosen + [indDominant.value];
      i := i + 1;
    }
    r := Success(sniaSym);
  }

  // ---- the yield vectors ----

  /** `np.where(snia_sym == x)[0][0]`: where `x` first occurs. */
  function FirstIndex(s: seq<string>, x: string): (k: nat)
    requires x in s
    ensures k < |s| && s[k] == x
    ensures forall j :: 0 <= j < k ==> s[j] != x
  {
    if s[0] == x then 0 else 1 + FirstIndex(s[1..], x)
  }

  /** The key `'_z'.join((mname, met))` of a yield vector. */
  function MzName(model: string, met: string): string {
    model + "_z" + met
  }

  /** Keys of different model/metallicity pairs never collide, since the
      model names all have four characters. */
  lemma MzNameInjective(m1: string, z1: string, m2: string, z2: string)
    requires m1 in ModelNames && m2 in ModelNames
    requires MzName(m1, z1) == MzName(m2, z2)
    ensures m1 == m2 && z1 == z2
  {
    var key := MzName(m1, z1);
    assert |m1| == 4 && |m2| == 4;
    assert key[..4] == m1 && key[..4] == m2;
    assert key[6..] == z1 && key[6..] == z2;
  }

  /** `v` is the yield vector of `column`: one entry per species, zero for a
      species without a Bravo yield, else the yield at the first position
      of that species in `snia_sym`. */
  ghost predicate IsYieldVector(v: seq<real>, column: seq<real>, sniaSym: seq<string>, species: seq<string>)
    requires |column| == |sniaSym|
  {
    && |v| == |species|
    && forall j :: 0 <= j < |species| ==>
         v[j] == if species[j] in sniaSym then column[FirstIndex(sniaSym, species[j])] else 0.0
  }

  /** `snia_yields[mzname] = np.zeros(n_species)` and the loop over `j`
      filling it. */
  method YieldVector(column: seq<real>, sniaSym: seq<string>, species: seq<string>) returns (v: seq<real>)
    requires |column| == |sniaSym|
    ensures IsYieldVector(v, column, sniaSym, species)
  {
    var a := new real[|species|](_ => 0.0);
    for j := 0 to |species|
      invariant forall i :: 0 <= i < j ==>
        a[i] == if species[i] in sniaSym then column[FirstIndex(sniaSym, species[i])] else 0.0
      invariant forall i :: j <= i < |species| ==> a[i] == 0.0
    {
      if species[j] in sniaSym {
        a[j] := column[FirstIndex(sniaSym, species[j])];
      }
    }
    v := a[..];
  }

  /** The DataFrame of model `m` can be built: every metallicity column is
      a yield list with one entry per symbol of `snia_sym`. */
  predicate FrameOk(data: Table, sniaSym: seq<string>, m: string) {
    m in data &&
    forall z :: z in data[m] ==> data[m][z].Yields? && |data[m][z].ylds| == |sniaSym|
  }

  /** The error of the first of the four DataFrames that cannot be built. */
  function FrameError(data: Table, sniaSym: seq<string>, names: seq<string>): (e: Option<YieldError>)
    ensures e.None? <==> forall i :: 0 <= i < |names| ==> FrameOk(data, sniaSym, names[i])
    ensures e.Some? ==> exists i :: (0 <= i < |names| && !FrameOk(data, sniaSym, names[i]) &&
      (forall j :: 0 <= j < i ==> FrameOk(data, sniaSym, names[j])) &&
      e.value == (if names[i] in data then BadColumn(names[i]) else MissingModel(names[i])))
  {
    if names == [] then None
    else
      var m := names[0];
      assert forall i :: 0 <= i < |names| - 1 ==> names[1..][i] == names[i + 1];
      if m !in data then Some(MissingModel(m))
      else if exists z :: z in data[m] && !(data[m][z].Yields? && |data[m][z].ylds| == |sniaSym|) then Some(BadColumn(m))
      else
        var rest := FrameError(data, sniaSym, names[1..]);
        if rest.Some? then
          var i :| (0 <= i < |names| - 1 && !FrameOk(data, sniaSym, names[1..][i]) &&
            (forall j :: 0 <= j < i ==> FrameOk(data, sniaSym, names[1..][j])) &&
            rest.value == (if names[1..][i] in data then BadColumn(names[1..][i]) else MissingModel(names[1..][i])));
          assert !FrameOk(data, sniaSym, names[i + 1]);
          rest
        else rest
  }

  /** `met` is a column of model `m` among the four. */
  ghost predicate IsColumn(data: Table, m: string, met: string) {
    m in ModelNames && m in data && met in data[m]
  }

  /** The keys of `acc` all belong to models listed in `done`. */
  ghost predicate KeysFrom(acc: map<string, seq<real>>, data: Table, done: seq<string>) {
    forall key :: key in acc ==> exists m, met :: IsColumn(data, m, met) && m in done && key == MzName(m, met)
  }

  /** The vectors of the models listed in `done` are in `acc`. */
  ghost predicate VectorsOf(acc: map<string, seq<real>>, data: Table, done: seq<string>, sniaSym: seq<string>, species: seq<string>) {
    forall m, met :: IsColumn(data, m, met) && m in done && data[m][met].Yields? && |data[m][met].ylds| == |sniaSym| ==>
      MzName(m, met) in acc && IsYieldVector(acc[MzName(m, met)], data[m][met].ylds, sniaSym, species)
  }

  /** While model `mname` is being added: the keys of `acc` belong to the
      models in `done` or to the columns of `mname` outside `left`. */
  ghost predicate KeysPart(acc: map<string, seq<real>>, data: Table, done: seq<string>, mname: string, left: set<string>) {
    forall key :: key in acc ==> exists m, met ::
      IsColumn(data, m, met) && (m in done || (m == mname && met !in left)) && key == MzName(m, met)
  }

  /** While model `mname` is being added: the vectors of the models in
      `done` and of the columns of `mname` outside `left` are in `acc`. */
  ghost predicate VectorsPart(acc: map<string, seq<real>>, data: Table, done: seq<string>, mname: string, left: set<string>,
                              sniaSym: seq<string>, species: seq<string>) {
    forall m, met :: IsColumn(data, m, met) && (m in done || (m == mname && met !in left)) &&
                     data[m][met].Yields? && |data[m][met].ylds| == |sniaSym| ==>
      MzName(m, met) in acc && IsYieldVector(acc[MzName(m, met)], data[m][met].ylds, sniaSym, species)
  }

  /** Before the first column of `mname` nothing of it is in `acc`. */
  lemma StartModel(acc: map<string, seq<real>>, data: Table, done: seq<string>, mname: string, sniaSym: seq<string>, species: seq<string>)
    requires mname in data
    requires KeysFrom(acc, data, done) && VectorsOf(acc, data, done, sniaSym, species)
    ensures KeysPart(acc, data, done, mname, data[mname].Keys)
    ensures VectorsPart(acc, data, done, mname, data[mname].Keys, sniaSym, species)
  {
  }

  /** Storing the vector of column `met` of `mname` moves `met` out of
      `left`; no other key is touched, since the names are distinct. */
  lemma AddColumn(acc: map<string, seq<real>>, data: Table, done: seq<string>, mname: string, left: set<string>,
                  met: string, v: seq<real>, sniaSym: seq<string>, species: seq<string>)
    requires mname in ModelNames && mname in data && met in left && met in data[mname]
    requires data[mname][met].Yields? && |data[mname][met].ylds| == |sniaSym|
    requires IsYieldVector(v, data[mname][met].ylds, sniaSym, species)
    requires KeysPart(acc, data, done, mname, left)
    requires VectorsPart(acc, data, done, mname, left, sniaSym, species)
    ensures KeysPart(acc[MzName(mname, met) := v], data, done, mname, left - {met})
    ensures VectorsPart(acc[MzName(mname, met) := v], data, done, mname, left - {met}, sniaSym, species)
  {
    forall m, z | IsColumn(data, m, z) && MzName(mname, met) == MzName(m, z) ensures m == mname && z == met {
      MzNameInjective(m, z, mname, met);
    }
  }

  /** After the last column of `mname`, `mname` counts as done. */
  lemma FinishModel(acc: map<string, seq<real>>, data: Table, done: seq<string>, mname: string, sniaSym: seq<string>, species: seq<string>)
    requires KeysPart(acc, data, done, mname, {})
    requires VectorsPart(acc, data, done, mname, {}, sniaSym, species)
    ensures KeysFrom(acc, data, done + [mname]) && VectorsOf(acc, data, done + [mname], sniaSym, species)
  {
  }

  /** The inner loop `for met in mod.keys()` for one model: a vector per
      metallicity column, added to the vectors of the models before it. */
  method AddModel(data: Table, i: nat, sniaSym: seq<string>, species: seq<string>, acc: map<string, seq<real>>)
    returns (out: map<string, seq<real>>)
    requires i < |ModelNames| && FrameOk(data, sniaSym, ModelNames[i])
    requires forall m :: m in ModelNames[..i] ==> FrameOk(data, sniaSym, m)
    requires KeysFrom(acc, data, ModelNames[..i])
    requires VectorsOf(acc, data, ModelNames[..i], sniaSym, species)
    ensures forall m :: m in ModelNames[..i + 1] ==> FrameOk(data, sniaSym, m)
    ensures KeysFrom(out, data, ModelNames[..i + 1])
    ensures VectorsOf(out, data, ModelNames[..i + 1], sniaSym, species)
  {
    var mname := ModelNames[i];
    var done := ModelNames[..i];
    assert ModelNames[..i + 1] == done + [mname];
    out := acc;
    var mets := data[mname].Keys;
    StartModel(acc, data, done, mname, sniaSym, species);
    while mets != {}
      invariant mets <= data[mname].Keys
      invariant KeysPart(out, data, done, mname, mets)
      invariant VectorsPart(out, data, done, mname, mets, sniaSym, species)
      decreases mets
    {
      var met :| met in mets;
      var v := YieldVector(data[mname][met].ylds, sniaSym, species);
      AddColumn(out, data, done, mname, mets, met, v, sniaSym, species);
      out := out[MzName(mname, met) := v];
      mets := mets - {met};
    }
    FinishModel(out, data, done, mname, sniaSym, species);
  }

  /** `table` has exactly one key per model and metallicity column,
      holding that column's yield vector. */
  ghost predicate YieldTable(data: Table, sniaSym: seq<string>, species: seq<string>, table: map<string, seq<real>>) {
    && (forall m, met :: IsColumn(data, m, met) ==>
          && data[m][met].Yields? && |data[m][met].ylds| == |sniaSym|
          && MzName(m, met) in table && IsYieldVector(table[MzName(m, met)], data[m][met].ylds, sniaSym, species))
    && (forall key :: key in table ==> exists m, met :: IsColumn(data, m, met) && key == MzName(m, met))
  }

  /** The DataFrames of the four models and the loop filling
      `snia_yields`: one vector per model and metallicity. */
  method BuildYields(data: Table, sniaSym: seq<string>, species: seq<string>)
    returns (r: Result<map<string, seq<real>>, YieldError>)
    ensures r.Failure? <==> FrameError(data, sniaSym, ModelNames).Some?
    ensures r.Failure? ==> r.error == FrameError(data, sniaSym, ModelNames).value
    ensures r.Success? ==> YieldTable(data, sniaSym, species, r.value)
  {
    var err := FrameError(data, sniaSym, ModelNames);
    if err.Some? {
      return Failure(err.value);
    }
    var sniaYields: map<string, seq<real>> := map[];
    for i := 0 to |ModelNames|
      invariant forall m :: m in ModelNames[..i] ==> FrameOk(data, sniaSym, m)
      invariant KeysFrom(sniaYields, data, ModelNames[..i])
      invariant VectorsOf(sniaYields, data, ModelNames[..i], sniaSym, species)
    {
      sniaYields := AddModel(data, i, sniaSym, species, sniaYields);
    }
    assert ModelNames[..4] == ModelNames;
    r := Success(sniaYields);
  }

  // ---- the whole script ----

  /** What the script computes: `snia_sym` and the vectors it pickles. */
  datatype Converted = Converted(sniaSym: seq<string>, sniaYields: map<string, seq<real>>)

  datatype ConvertError = ReadError(parse: ParseError) | MapError(error: YieldError)

  /** `c` is what the element mapping and the vector construction make of
      the state `st` the reader left. */
  ghost predicate ConvertedFrom(st: ParseState, iso: seq<Isotope>, species: seq<string>, c: Converted) {
    && st.bravoEl.Some?
    && DominantNames(st.bravoEl.value, iso, c.sniaSym)
    && FrameError(st.data, c.sniaSym, ModelNames).None?
    && YieldTable(st.data, c.sniaSym, species, c.sniaYields)
  }

  /** Element `i` is the first element of `el` without an isotope. */
  ghost predicate FirstWithoutIsotope(el: seq<string>, iso: seq<Isotope>, i: int) {
    0 <= i < |el| && !HasIsotope(iso, el[i]) && forall j :: 0 <= j < i ==> HasIsotope(iso, el[j])
  }

  /** The state the reader left can be converted: there was a row, every
      element of `bravo_el` has an isotope, and every column of the four
      models is a yield list with one entry per element. */
  ghost predicate Maps(st: ParseState, iso: seq<Isotope>) {
    && st.bravoEl.Some?
    && (forall i :: 0 <= i < |st.bravoEl.value| ==> HasIsotope(iso, st.bravoEl.value[i]))
    && FrameError(st.data, st.bravoEl.value, ModelNames).None?
  }

  /** Whether the DataFrames can be built depends on `snia_sym` only
      through its length. */
  lemma FrameErrorLength(data: Table, a: seq<string>, b: seq<string>, names: seq<string>)
    requires |a| == |b|
    ensures FrameError(data, a, names) == FrameError(data, b, names)
  {
    assert forall m :: FrameOk(data, a, m) == FrameOk(data, b, m);
    var ea, eb := FrameError(data, a, names), FrameError(data, b, names);
    if ea.Some? {
      var i :| 0 <= i < |names| && !FrameOk(data, a, names[i]) &&
        (forall j :: 0 <= j < i ==> FrameOk(data, a, names[j])) &&
        ea.value == (if names[i] in data then BadColumn(names[i]) else MissingModel(names[i]));
      var k :| 0 <= k < |names| && !FrameOk(data, b, names[k]) &&
        (forall j :: 0 <= j < k ==> FrameOk(data, b, names[j])) &&
        eb.value == (if names[k] in data then BadColumn(names[k]) else MissingModel(names[k]));
      assert i == k;
    }
  }

  /** The script from the yield file to `snia_yields`: read the file, map
      the elements onto their dominant isotopes, build the vectors.  The
      species list and the solar isotope table are given, as read from
      `species.txt` and `Solar_isotopes.txt`. */
  method ConvertBravo(lines: seq<string>, parse: FloatParser, species: seq<string>, iso: seq<Isotope>)
    returns (r: Result<Converted, ConvertError>)
    ensures Read(lines, parse).Failure? ==> r == Failure(ReadError(Read(lines, parse).error))
    ensures Read(lines, parse).Success? && Read(lines, parse).value.bravoEl.None? ==> r == Failure(MapError(NoRows))
    ensures r.Success? ==> Read(lines, parse).Success? && ConvertedFrom(Read(lines, parse).value, iso, species, r.value)
    ensures r.Success? <==> Read(lines, parse).Success? && Maps(Read(lines, parse).value, iso)
    ensures Read(lines, parse).Success? && Read(lines, parse).value.bravoEl.Some? ==>
      var el := Read(lines, parse).value.bravoEl.value;
      !(forall i :: 0 <= i < |el| ==> HasIsotope(iso, el[i])) ==>
        exists i :: FirstWithoutIsotope(el, iso, i) && r == Failure(MapError(NoIsotope(el[i])))
    ensures Read(lines, parse).Success? && Read(lines, parse).value.bravoEl.Some? ==>
      var st := Read(lines, parse).value;
      (forall i :: 0 <= i < |st.bravoEl.value| ==> HasIsotope(iso, st.bravoEl.value[i])) &&
      FrameError(st.data, st.bravoEl.value, ModelNames).Some? ==>
        r == Failure(MapError(FrameError(st.data, st.bravoEl.value, ModelNames).value))
  {
    var read := BravoParse.ReadYields(lines, parse);
    if read.Failure? {
      return Failure(ReadError(read.error));
    }
    var st := read.value;
    if st.bravoEl.None? {
      return Failure(MapError(NoRows));
    }
    var sym := DominantIsotopes(st.bravoEl.value, iso);
    if sym.Failure? {
      return Failure(MapError(sym.error));
    }
    FrameErrorLength(st.data, sym.value, st.bravoEl.value, ModelNames);
    var ylds := BuildYields(st.data, sym.value, species);
    if ylds.Failure? {
      return Failure(MapError(ylds.error));
    }
    r := Success(Converted(sym.value, ylds.value));
    assert ConvertedFrom(st, iso, species, r.value);
  }
}
