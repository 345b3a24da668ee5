/** The decision rules of the measurement-session processor
    (src/pstrace_session.py): validation of the per-metal legal limits, the
    choice of the third voltammetric cycle, the percent-of-limit estimate per
    metal with its global classification, the contamination level and label
    of a measurement, and the layout of the PCA/ppm CSV matrix. */
module PstraceSession {
  import opened Text
  import opened Values
  import opened Canonical

  /** The metals with an official limit, in the order the pipeline uses. */
  const METALS: seq<string> := ["Cd", "Zn", "Cu", "Cr", "Ni"]

  /** Key under which the limit loader stores the version metadata. */
  const LIMITS_VERSION_KEY := "_limits_version"

  // ---------------------------------------------------------------------------
  // Limits (`cargar_limites_ppm`)

  /** The limit kept for one raw JSON value: `None` when missing, not
      convertible by `float()` or not positive, the value otherwise. */
  function LimitValue(raw: Value, parseFloat: string -> Option<real>): (r: Value)
    ensures r == Null || (r.Float? && r.r > 0.0 && raw != Null && FloatOf(raw, parseFloat) == Some(r.r))
    ensures raw != Null && FloatOf(raw, parseFloat).Some? && FloatOf(raw, parseFloat).value > 0.0
            ==> r == Float(FloatOf(raw, parseFloat).value)
  {
    if raw == Null then Null
    else match FloatOf(raw, parseFloat)
      case None => Null
      case Some(x) => if x <= 0.0 then Null else Float(x)
  }

  /** The limits dict `cargar_limites_ppm` returns. `parsed` is the decoded
      JSON document, `None` when the file is missing or could not be read or
      decoded; `meta` is the version metadata it records. A document that is
      not a JSON object counts as a decoding error. */
  method LoadLimits(parsed: Option<Value>, meta: Value, parseFloat: string -> Option<real>)
    returns (limits: map<string, Value>)
    ensures limits.Keys == (set m | m in METALS) + {LIMITS_VERSION_KEY}
    ensures limits[LIMITS_VERSION_KEY] == meta
    ensures forall m :: m in METALS ==>
              limits[m] == (if parsed.Some? && parsed.value.Dict?
                            then LimitValue(Get(parsed.value.fields, m, Null), parseFloat)
                            else Null)
  {
    if parsed.None? || !parsed.value.Dict? {
      limits := (map m | m in METALS :: Null)[LIMITS_VERSION_KEY := meta];
      return;
    }
    var fields := parsed.value.fields;
    limits := map[];
    var i := 0;
    while i < |METALS|
      invariant 0 <= i <= |METALS|
      invariant limits.Keys == set m | m in METALS[..i]
      invariant forall m :: m in METALS[..i] ==> limits[m] == LimitValue(Get(fields, m, Null), parseFloat)
    {
      var metal := METALS[i];
      var raw := Get(fields, metal, Null);
      if raw == Null {
        limits := limits[metal := Null];
      } else {
        var val := FloatOf(raw, parseFloat);
        if val.None? {
          limits := limits[metal := Null];
        } else if val.value <= 0.0 {
          limits := limits[metal := Null];
        } else {
          limits := limits[metal := Float(val.value)];
        }
      }
      assert METALS[..i + 1] == METALS[..i] + [metal];
      i := i + 1;
    }
    assert METALS[..i] == METALS;
    limits := limits[LIMITS_VERSION_KEY := meta];
  }

  // ---------------------------------------------------------------------------
  // Cycles (`procesar_ciclos_voltametricos`)

  /** The current values used for analysis: those of the third cycle, or
      nothing when fewer than three cycles were recorded. A curve is given by
      its Y values. */
  function ThirdCycle(curves: seq<seq<real>>): (r: seq<real>)
    ensures |curves| < 3 ==> r == []
    ensures |curves| >= 3 ==> r == curves[2]
  {
    if |curves| < 3 then [] else curves[2]
  }

  /** `max(xs)` */
  function Peak(xs: seq<real>): (m: real)
    requires xs != []
    ensures m in xs
    ensures forall i :: 0 <= i < |xs| ==> xs[i] <= m
  {
    if |xs| == 1 then xs[0]
    else
      var p := Peak(xs[..|xs| - 1]);
      assert forall i :: 0 <= i < |xs| - 1 ==> xs[i] == xs[..|xs| - 1][i];
      if xs[|xs| - 1] > p then xs[|xs| - 1] else p
  }

  // ---------------------------------------------------------------------------
  // Percent-of-limit estimates (`calcular_estimaciones_ppm`)

  /** The sub-dict `{"ppm", "pct_of_limit", "note"}` of one metal. */
  datatype MetalEstimate = MetalEstimate(ppm: Option<real>, pctOfLimit: Option<real>, note: Option<string>)

  /** The result of `calcular_estimaciones_ppm`: `{}` when there is no data,
      otherwise one entry per metal plus the global classification, the
      largest percentage and the method name. */
  datatype Estimates =
    | NoEstimates
    | Estimates(metals: map<string, MetalEstimate>, classification: string, maxPct: real, methodName: string)

  const METHOD_NAME := "pca_peak_vs_limit"
  const MISSING_LIMIT := "missing_limit"
  const INVALID_LIMIT := "invalid_limit"
  const NONPOSITIVE_LIMIT := "invalid_limit_nonpositive"

  const ANOMALA_ACCENTED := "AN\U{D3}MALA"
  const EN_ATENCION := "EN ATENCI\U{D3}N"

  /** `limites_ppm.get(metal)` when `limites_ppm` is a dict, `None` otherwise. */
  function LimitFor(limits: Value, metal: string): Value
  {
    if limits.Dict? then Get(limits.fields, metal, Null) else Null
  }

  /** `(valor_pico / limite) * 100` */
  function PctOfLimit(peak: real, limit: real): real
    requires limit > 0.0
  {
    peak / limit * 100.0
  }

  /** The estimate of one metal for peak value `peak` and raw limit `limit`. */
  function EstimateFor(peak: real, limit: Value, parseFloat: string -> Option<real>): (e: MetalEstimate)
    ensures e.ppm.None?
    ensures e.pctOfLimit.Some? <==> e.note.None?
    ensures limit == Null ==> e.note == Some(MISSING_LIMIT)
    ensures limit != Null && FloatOf(limit, parseFloat).None? ==> e.note == Some(INVALID_LIMIT)
    ensures limit != Null && FloatOf(limit, parseFloat).Some? && FloatOf(limit, parseFloat).value <= 0.0
            ==> e.note == Some(NONPOSITIVE_LIMIT)
    ensures e.pctOfLimit.Some? ==>
              limit != Null && FloatOf(limit, parseFloat).Some? && FloatOf(limit, parseFloat).value > 0.0
              && e.pctOfLimit.value == PctOfLimit(peak, FloatOf(limit, parseFloat).value)
  {
    if limit == Null then MetalEstimate(None, None, Some(MISSING_LIMIT))
    else match FloatOf(limit, parseFloat)
      case None => MetalEstimate(None, None, Some(INVALID_LIMIT))
      case Some(x) =>
        if x <= 0.0 then MetalEstimate(None, None, Some(NONPOSITIVE_LIMIT))
        else MetalEstimate(None, Some(PctOfLimit(peak, x)), None)
  }

  /** The largest of 0 and the present values among the first `n` of `ps`:
      the running maximum that starts at 0.0 and is raised by every larger
      value. */
  function MaxValid(ps: seq<Option<real>>, n: nat): (m: real)
    requires n <= |ps|
    ensures m >= 0.0
    ensures forall i :: 0 <= i < n && ps[i].Some? ==> ps[i].value <= m
    ensures m == 0.0 || exists i :: 0 <= i < n && ps[i] == Some(m)
  {
    if n == 0 then 0.0
    else
      var p := MaxValid(ps, n - 1);
      match ps[n - 1]
      case Some(x) => if x > p then x else p
      case None => p
  }

  /** The percentages of limit of `metals`, in order. */
  function PctsFor(metals: seq<string>, peak: real, limits: Value, parseFloat: string -> Option<real>): (ps: seq<Option<real>>)
    ensures |ps| == |metals|
    ensures forall i :: 0 <= i < |metals| ==> ps[i] == EstimateFor(peak, LimitFor(limits, metals[i]), parseFloat).pctOfLimit
  {
    seq(|metals|, i requires 0 <= i < |metals| => EstimateFor(peak, LimitFor(limits, metals[i]), parseFloat).pctOfLimit)
  }

  /** The global classification by the largest percentage of limit. */
  function ClassifyPct(p: real): (c: string)
    ensures c == CONTAMINADA <==> p >= 120.0
    ensures c == ANOMALA_ACCENTED <==> 100.0 <= p < 120.0
    ensures c == EN_ATENCION <==> 80.0 <= p < 100.0
    ensures c == SEGURA <==> p < 80.0
  {
    if p >= 120.0 then CONTAMINADA
    else if p >= 100.0 then ANOMALA_ACCENTED
    else if p >= 80.0 then EN_ATENCION
    else SEGURA
  }

  /** The rank of a global classification, from safe to contaminated. */
  function Severity(name: string): int
  {
    if name == CONTAMINADA then 3
    else if name == ANOMALA_ACCENTED then 2
    else if name == EN_ATENCION then 1
    else 0
  }

  /** What `calcular_estimaciones_ppm(datos_pca, limites_ppm)` returns:
      nothing for empty data; otherwise one estimate per metal, the largest
      of their percentages of limit (0 when none has one), its
      classification and the method name. */
  function Estimation(datos: seq<real>, limits: Value, parseFloat: string -> Option<real>): (e: Estimates)
    ensures e.NoEstimates? <==> datos == []
    ensures e.Estimates? ==>
              && (forall m :: m in e.metals <==> m in METALS)
              && (forall m :: m in METALS ==> e.metals[m] == EstimateFor(Peak(datos), LimitFor(limits, m), parseFloat))
              && e.maxPct >= 0.0
              && (forall m :: m in METALS && e.metals[m].pctOfLimit.Some? ==> e.metals[m].pctOfLimit.value <= e.maxPct)
              && (e.maxPct == 0.0 || exists m :: m in METALS && e.metals[m].pctOfLimit == Some(e.maxPct))
              && e.classification == ClassifyPct(e.maxPct)
              && e.methodName == METHOD_NAME
  {
    if datos == [] then NoEstimates
    else
      var peak := Peak(datos);
      var ps := PctsFor(METALS, peak, limits, parseFloat);
      var maxPct := MaxValid(ps, |METALS|);
      var metals := EstimatesFor(METALS, |METALS|, peak, limits, parseFloat);
      EstimatesForEntries(METALS, |METALS|, peak, limits, parseFloat);
      assert METALS[..|METALS|] == METALS;
      assert maxPct == 0.0 || exists m :: m in METALS && metals[m].pctOfLimit == Some(maxPct) by {
        if maxPct != 0.0 {
          var i :| 0 <= i < |METALS| && ps[i] == Some(maxPct);
          assert metals[METALS[i]].pctOfLimit == Some(maxPct);
        }
      }
      assert forall m :: m in METALS && metals[m].pctOfLimit.Some? ==> metals[m].pctOfLimit.value <= maxPct by {
        forall m | m in METALS && metals[m].pctOfLimit.Some?
          ensures metals[m].pctOfLimit.value <= maxPct
        {
          var i :| 0 <= i < |METALS| && METALS[i] == m;
          assert ps[i] == metals[m].pctOfLimit;
        }
      }
      Estimates(metals, ClassifyPct(maxPct), maxPct, METHOD_NAME)
  }

  /** `calcular_estimaciones_ppm(datos_pca, limites_ppm)` */
  method Estimate(datos: seq<real>, limits: Value, parseFloat: string -> Option<real>)
    returns (e: Estimates)
    ensures e == Estimation(datos, limits, parseFloat)
  {
    if datos == [] {
      return NoEstimates;
    }
    var peak := Peak(datos);
    var results, maxPct := EstimateEach(METALS, peak, limits, parseFloat);
    e := Estimates(results, ClassifyPct(maxPct), maxPct, METHOD_NAME);
  }

  /** The entries of the first `n` metals of `metals`, filled in order. */
  function EstimatesFor(metals: seq<string>, n: nat, peak: real, limits: Value, parseFloat: string -> Option<real>)
    : (r: map<string, MetalEstimate>)
    requires n <= |metals|
  {
    if n == 0 then map[]
    else
      EstimatesFor(metals, n - 1, peak, limits, parseFloat)
        [metals[n - 1] := EstimateFor(peak, LimitFor(limits, metals[n - 1]), parseFloat)]
  }

  /** The entries of the first `n` metals are those metals, each with its
      own estimate. */
  lemma {:induction false} EstimatesForEntries(metals: seq<string>, n: nat, peak: real, limits: Value,
                                               parseFloat: string -> Option<real>)
    requires n <= |metals|
    ensures forall m :: m in EstimatesFor(metals, n, peak, limits, parseFloat) <==> m in metals[..n]
    ensures forall m :: m in metals[..n] ==>
              EstimatesFor(metals, n, peak, limits, parseFloat)[m] == EstimateFor(peak, LimitFor(limits, m), parseFloat)
  {
    if n > 0 {
      EstimatesForEntries(metals, n - 1, peak, limits, parseFloat);
      assert metals[..n] == metals[..n - 1] + [metals[n - 1]];
    }
  }

  /** The loop over the metals: one entry per metal, and the running
      maximum of the percentages of limit. */
  method EstimateEach(metals: seq<string>, peak: real, limits: Value, parseFloat: string -> Option<real>)
    returns (results: map<string, MetalEstimate>, maxPct: real)
    ensures results == EstimatesFor(metals, |metals|, peak, limits, parseFloat)
    ensures maxPct == MaxValid(PctsFor(metals, peak, limits, parseFloat), |metals|)
  {
    ghost var ps := PctsFor(metals, peak, limits, parseFloat);
    results := map[];
    maxPct := 0.0;
    var i := 0;
    while i < |metals|
      invariant 0 <= i <= |metals|
      invariant results == EstimatesFor(metals, i, peak, limits, parseFloat)
      invariant maxPct == MaxValid(ps, i)
    {
      var metal := metals[i];
      var est := EstimateFor(peak, LimitFor(limits, metal), parseFloat);
      EstimateStep(metals, i, peak, limits, parseFloat);
      MaxValidStep(ps, i);
      results := results[metal := est];
      var pct := est.pctOfLimit;
      if pct.Some? && pct.value > maxPct {
        maxPct := pct.value;
      }
      i := i + 1;
    }
  }

  /** One more metal adds its own entry and its own percentage. */
  lemma EstimateStep(metals: seq<string>, i: nat, peak: real, limits: Value, parseFloat: string -> Option<real>)
    requires i < |metals|
    ensures EstimatesFor(metals, i + 1, peak, limits, parseFloat)
            == EstimatesFor(metals, i, peak, limits, parseFloat)[metals[i] := EstimateFor(peak, LimitFor(limits, metals[i]), parseFloat)]
    ensures PctsFor(metals, peak, limits, parseFloat)[i] == EstimateFor(peak, LimitFor(limits, metals[i]), parseFloat).pctOfLimit
  {
  }

  /** The running maximum after one more value. */
  lemma MaxValidStep(ps: seq<Option<real>>, i: nat)
    requires i < |ps|
    ensures MaxValid(ps, i + 1)
            == if ps[i].Some? && ps[i].value > MaxValid(ps, i) then ps[i].value else MaxValid(ps, i)
  {
  }

  /** The dict form of a metal's estimate. */
  function MetalValue(e: MetalEstimate): Value
  {
    Dict(map[
      "ppm" := (if e.ppm.Some? then Float(e.ppm.value) else Null),
      "pct_of_limit" := (if e.pctOfLimit.Some? then Float(e.pctOfLimit.value) else Null),
      "note" := (if e.note.Some? then Str(e.note.value) else Null)])
  }

  /** The dict `calcular_estimaciones_ppm` returns, as the rest of the
      pipeline reads it. */
  function EstimatesValue(e: Estimates): Value
  {
    match e
    case NoEstimates => Dict(map[])
    case Estimates(metals, classification, maxPct, methodName) =>
      Dict((map m | m in metals :: MetalValue(metals[m]))
             ["clasificacion" := Str(classification)]
             ["max_pct" := Float(maxPct)]
             ["method" := Str(methodName)])
  }

  // ---------------------------------------------------------------------------
  // Contamination level and label of one measurement
  // (`extraer_y_procesar_sesion_completa`)

  /** The percentage read back for `metal`: from `pct_of_limit` (or `pct`)
      of a sub-dict, or the entry itself in the older flat format; `None`
      when absent or not convertible by `float()`. */
  function PctFromEstimates(est: Value, metal: string, parseFloat: string -> Option<real>): Option<real>
  {
    if !est.Dict? then None
    else
      var v := Get(est.fields, metal, Null);
      var pv := if v.Dict? then
                  (if "pct_of_limit" in v.fields then v.fields["pct_of_limit"] else Get(v.fields, "pct", Null))
                else v;
      if pv == Null then None else FloatOf(pv, parseFloat)
  }

  function LevelPcts(est: Value, parseFloat: string -> Option<real>): (ps: seq<Option<real>>)
    ensures |ps| == |METALS|
    ensures forall i :: 0 <= i < |METALS| ==> ps[i] == PctFromEstimates(est, METALS[i], parseFloat)
  {
    seq(|METALS|, i requires 0 <= i < |METALS| => PctFromEstimates(est, METALS[i], parseFloat))
  }

  /** The loop computing `nivel_contaminacion`. */
  method ContaminationLevel(est: Value, parseFloat: string -> Option<real>) returns (level: real)
    ensures level == MaxValid(LevelPcts(est, parseFloat), |METALS|)
  {
    ghost var ps := LevelPcts(est, parseFloat);
    level := 0.0;
    var i := 0;
    while i < |METALS|
      invariant 0 <= i <= |METALS|
      invariant level == MaxValid(ps, i)
    {
      var pct := PctFromEstimates(est, METALS[i], parseFloat);
      assert pct == ps[i];
      if pct.Some? && pct.value > level {
        level := pct.value;
      }
      i := i + 1;
    }
  }

  /** The raw label chosen from the contamination level. */
  function SessionLabel(level: real): (r: string)
    ensures IsCanonical(r)
  {
    if level >= 120.0 then CONTAMINADA
    else if level >= 100.0 then ANOMALA
    else if level >= 80.0 then ANOMALA
    else SEGURA
  }

  /** What the session records for one measurement. */
  datatype Measurement = Measurement(
    pcaScores: seq<real>,
    estimates: Estimates,
    level: real,
    classification: string,
    displayLabel: string)

  /** One measurement of the session, from its curves to its label; `None`
      when it is skipped for lack of PCA data. */
  method ProcessMeasurement(curves: seq<seq<real>>, limits: Value,
                            parseFloat: string -> Option<real>, u: UnicodeData)
    returns (r: Option<Measurement>)
    ensures r.None? <==> ThirdCycle(curves) == []
    ensures r.Some? ==>
              && r.value.pcaScores == ThirdCycle(curves)
              && r.value.estimates == Estimation(ThirdCycle(curves), limits, parseFloat)
              && r.value.level == r.value.estimates.maxPct
              && r.value.level == MaxValid(PctsFor(METALS, Peak(ThirdCycle(curves)), limits, parseFloat), |METALS|)
              && r.value.classification == NormalizeClassification(Some(SessionLabel(r.value.level)), u)
              && r.value.displayLabel == DisplayFromLabel(Some(r.value.classification), u)
  {
    var datos := ThirdCycle(curves);
    if datos == [] {
      return None;
    }
    var est := Estimate(datos, limits, parseFloat);
    var level := ContaminationLevel(EstimatesValue(est), parseFloat);
    LevelMatchesMaxPct(Peak(datos), limits, parseFloat, est);
    var raw := SessionLabel(level);
    var classification := NormalizeClassification(Some(raw), u);
    var display := DisplayFromLabel(Some(classification), u);
    r := Some(Measurement(datos, est, level, classification, display));
  }

  // ---------------------------------------------------------------------------
  // CSV matrix (`generar_csv_matriz_pca_ppm`)

  /** The name of PCA column `i` (0-based). */
  function PointName(i: nat): string
  {
    "punto_" + DecimalString(i + 1)
  }

  const CSV_TAIL: seq<string> := [
    "Cd_pct", "Zn_pct", "Cu_pct", "Cr_pct", "Ni_pct",
    "ppm_modelo",
    "contamination_level_pct", "clasificacion",
    "model_version", "model_used_n_features", "model_used_baseline",
    "model_baseline_source", "model_notes"]

  /** The header row for `n` PCA points. */
  function CsvHeader(n: nat): (h: seq<string>)
    ensures |h| == n + 15
    ensures h[0] == "sensor_id" && h[1] == "measurement_title"
    ensures forall i :: 0 <= i < n ==> h[2 + i] == PointName(i)
    ensures h[n + 2..] == CSV_TAIL
  {
    ["sensor_id", "measurement_title"] + seq(n, i requires 0 <= i => PointName(i)) + CSV_TAIL
  }

  /** `len(v)`; `None` where Python raises. */
  function PyLen(v: Value): Option<nat>
  {
    match v
    case List(items) => Some(|items|)
    case Str(s) => Some(|s|)
    case Dict(fields) => Some(|fields|)
    case _ => None
  }

  /** The number of PCA columns, from the first measurement; `None` where
      Python raises. */
  function PcaColumns(first: Value): Option<nat>
  {
    if first.Dict? then PyLen(Get(first.fields, "pca_scores", List([]))) else None
  }

  /** `list(s)` for a string: one single-character string per character. */
  function Chars(s: string): (r: seq<Value>)
    ensures |r| == |s|
    ensures forall i :: 0 <= i < |s| ==> r[i] == Str([s[i]])
  {
    if s == [] then [] else [Str([s[0]])] + Chars(s[1..])
  }

  /** `v or []` turned into a list of cells; `None` where Python raises or
      where the value is a dict, whose key order the model does not have. */
  function PcaItems(v: Value): Option<seq<Value>>
  {
    if !Truthy(v) then Some([])
    else match v
      case List(items) => Some(items)
      case Str(s) => Some(Chars(s))
      case _ => None
  }

  /** The PCA cells of a row: padded with `None` up to `n`, or cut to `n`. */
  function Fit(items: seq<Value>, n: nat): (r: seq<Value>)
    ensures |r| == n
    ensures forall i :: 0 <= i < n ==> r[i] == (if i < |items| then items[i] else Null)
  {
    if |items| < n then items + seq(n - |items|, _ => Null) else items[..n]
  }

  /** `float(v) if v is not None else None`, with `None` on failure. */
  function FloatCell(v: Value, parseFloat: string -> Option<real>): (r: Value)
    ensures r == Null || r.Float?
    ensures v != Null && FloatOf(v, parseFloat).Some? ==> r == Float(FloatOf(v, parseFloat).value)
  {
    if v == Null then Null
    else match FloatOf(v, parseFloat)
      case Some(x) => Float(x)
      case None => Null
  }

  /** `_safe_get_pct(d, k)` */
  function SafeGetPct(d: map<string, Value>, k: string, parseFloat: string -> Option<real>): (r: Value)
    ensures k !in d ==> r == Null
    ensures k in d && !d[k].Dict? ==> r == Null || r.Float?
    ensures k in d && d[k].Dict? && "pct_of_limit" in d[k].fields && Truthy(d[k].fields["pct_of_limit"])
            ==> r == d[k].fields["pct_of_limit"]
    ensures k in d && d[k].Dict? && r != Null ==>
              Truthy(r) && (r == Get(d[k].fields, "pct_of_limit", Null) || r == Get(d[k].fields, "pct", Null))
  {
    var v := Get(d, k, Null);
    if v.Dict? then
      var a := Get(v.fields, "pct_of_limit", Null);
      var b := Get(v.fields, "pct", Null);
      if Truthy(a) then a else if Truthy(b) then b else Null
    else FloatCell(v, parseFloat)
  }

  /** `v or {}` used as a dict; `None` where `.get` would raise. */
  function DictOrEmpty(v: Value): Option<map<string, Value>>
  {
    if !Truthy(v) then Some(map[])
    else if v.Dict? then Some(v.fields)
    else None
  }

  /** `None` is written as the empty string. */
  function CsvCell(v: Value): Value
  {
    if v == Null then Str("") else v
  }

  /** Every `None` cell written as the empty string. */
  function Blank(cells: seq<Value>): (r: seq<Value>)
    ensures |r| == |cells|
    ensures forall i :: 0 <= i < |cells| ==> r[i] == CsvCell(cells[i])
  {
    if cells == [] then [] else [CsvCell(cells[0])] + Blank(cells[1..])
  }

  /** The cells of one measurement's row before `None` is blanked. */
  function RawCells(f: map<string, Value>, items: seq<Value>, est: map<string, Value>,
                    meta: map<string, Value>, n: nat, parseFloat: string -> Option<real>): (cells: seq<Value>)
    ensures |cells| == n + 15
    ensures cells[2..n + 2] == Fit(items, n)
  {
    [Get(f, "sensor_id", Str("N/A")), Get(f, "title", Str("Sin t\U{ED}tulo"))]
    + Fit(items, n)
    + [SafeGetPct(est, "Cd", parseFloat), SafeGetPct(est, "Zn", parseFloat),
       SafeGetPct(est, "Cu", parseFloat), SafeGetPct(est, "Cr", parseFloat),
       SafeGetPct(est, "Ni", parseFloat)]
    + [FloatCell(Get(f, "ppm_modelo", Null), parseFloat),
       FloatCell(Get(f, "contamination_level", Null), parseFloat),
       Get(f, "clasificacion", Str("DESCONOCIDA"))]
    + [Get(meta, "model_version", Null), Get(meta, "used_n_features", Null),
       Bool(Truthy(Get(meta, "used_baseline", Null))),
       Get(meta, "baseline_source", Null), Get(meta, "notes", Null)]
  }

  /** The CSV row written for one measurement with `n` PCA columns; `None`
      where building it raises. */
  function Row(m: Value, n: nat, parseFloat: string -> Option<real>): (r: Option<seq<Value>>)
    ensures r.Some? ==> |r.value| == n + 15
    ensures r.Some? ==> forall i :: 0 <= i < |r.value| ==> r.value[i] != Null
  {
    if !m.Dict? then None
    else
      var f := m.fields;
      match PcaItems(Get(f, "pca_scores", List([])))
      case None => None
      case Some(items) =>
        match DictOrEmpty(Get(f, "ppm_estimations", Dict(map[])))
        case None => None
        case Some(est) =>
          match DictOrEmpty(Get(f, "model_meta", Dict(map[])))
          case None => None
          case Some(meta) =>
            Some(Blank(RawCells(f, items, est, meta, n, parseFloat)))
  }

  /** The row-writing loop of `generar_csv_matriz_pca_ppm`: the rows of
      `results`, in order, up to the first one whose construction raises. */
  method WriteRows(results: seq<Value>, n: nat, parseFloat: string -> Option<real>)
    returns (written: seq<seq<Value>>)
    ensures |written| <= |results|
    ensures forall j :: 0 <= j < |written| ==> Row(results[j], n, parseFloat) == Some(written[j])
    ensures |written| < |results| ==> Row(results[|written|], n, parseFloat).None?
    ensures forall j :: 0 <= j < |written| ==> |written[j]| == n + 15
  {
    written := [];
    var i := 0;
    while i < |results|
      invariant 0 <= i <= |results|
      invariant |written| == i
      invariant forall j :: 0 <= j < i ==> Row(results[j], n, parseFloat) == Some(written[j])
      invariant forall j :: 0 <= j < i ==> |written[j]| == n + 15
    {
      var row := Row(results[i], n, parseFloat);
      if row.None? {
        return;
      }
      ghost var before := written;
      written := written + [row.value];
      forall j | 0 <= j < i + 1 ensures Row(results[j], n, parseFloat) == Some(written[j]) {
        if j < i {
          assert written[j] == before[j];
        }
      }
      i := i + 1;
    }
  }

  /** `generar_csv_matriz_pca_ppm(resultados_mediciones)`: the header and the
      rows written, and whether the whole matrix was written. */
  method GenerateCsv(results: seq<Value>, parseFloat: string -> Option<real>)
    returns (ok: bool, header: seq<string>, written: seq<seq<Value>>)
    ensures results == [] ==> !ok
    ensures header == (if results != [] && PcaColumns(results[0]).Some? && PcaColumns(results[0]).value > 0
                       then CsvHeader(PcaColumns(results[0]).value) else [])
    ensures header == [] ==> !ok && written == []
    ensures |written| <= |results|
    ensures forall j :: 0 <= j < |written| ==> Row(results[j], |header| - 15, parseFloat) == Some(written[j])
    ensures ok <==> header != [] && |written| == |results|
    ensures header != [] && !ok ==> Row(results[|written|], |header| - 15, parseFloat).None?
    ensures forall j :: 0 <= j < |written| ==> |written[j]| == |header|
  {
    ok, header, written := false, [], [];
    if results == [] {
      return;
    }
    var columns := PcaColumns(results[0]);
    if columns.None? || columns.value == 0 {
      return;
    }
    var n := columns.value;
    header := CsvHeader(n);
    written := WriteRows(results, n, parseFloat);
    ok := |written| == |results|;
  }

  // ---------------------------------------------------------------------------
  // Properties

  /** The limits written by the loader never make an estimate report an
      invalid limit: each metal is either estimated or has no limit. */
  lemma LoadedLimitsAreUsable(peak: real, raw: Value, parseFloat: string -> Option<real>)
    ensures EstimateFor(peak, LimitValue(raw, parseFloat), parseFloat).note in {None, Some(MISSING_LIMIT)}
  {
  }

  /** The global classification only moves towards CONTAMINADA as the largest
      percentage grows. */
  lemma ClassifyPctMonotone(a: real, b: real)
    requires a <= b
    ensures Severity(ClassifyPct(a)) <= Severity(ClassifyPct(b))
  {
  }

  /** The contamination level read back from the estimates is their
      `max_pct`. */
  lemma LevelMatchesMaxPct(peak: real, limits: Value, parseFloat: string -> Option<real>, e: Estimates)
    requires e.Estimates? && (forall m :: m in e.metals <==> m in METALS)
    requires forall m :: m in METALS ==> e.metals[m] == EstimateFor(peak, LimitFor(limits, m), parseFloat)
    requires e.maxPct == MaxValid(PctsFor(METALS, peak, limits, parseFloat), |METALS|)
    ensures MaxValid(LevelPcts(EstimatesValue(e), parseFloat), |METALS|) == e.maxPct
  {
    var v := EstimatesValue(e);
    var ps := LevelPcts(v, parseFloat);
    var qs := PctsFor(METALS, peak, limits, parseFloat);
    forall i | 0 <= i < |METALS| ensures ps[i] == qs[i] {
      var m := METALS[i];
      EntryOfMetal(e, m);
      PctReadBack(v, m, e.metals[m], parseFloat);
    }
    assert ps == qs;
  }

  /** A metal's entry in the estimates dict is its own estimate: the metal
      names do not clash with the summary keys. */
  lemma EntryOfMetal(e: Estimates, m: string)
    requires e.Estimates? && m in e.metals && m in METALS
    ensures m in EstimatesValue(e).fields && EstimatesValue(e).fields[m] == MetalValue(e.metals[m])
  {
    assert |m| == 2;
  }

  /** The percentage of a metal's dict entry reads back as the percentage
      it was built from. */
  lemma PctReadBack(est: Value, metal: string, e: MetalEstimate, parseFloat: string -> Option<real>)
    requires est.Dict? && metal in est.fields && est.fields[metal] == MetalValue(e)
    ensures PctFromEstimates(est, metal, parseFloat) == e.pctOfLimit
  {
    assert "pct_of_limit" in MetalValue(e).fields;
  }

  /** The session's raw label agrees with the global classification of the
      estimates at both ends; in between, ANÓMALA and EN ATENCIÓN both
      become ANOMALA, so the session's threshold for ANOMALA is 80. */
  lemma SessionLabelAgrees(p: real)
    ensures SessionLabel(p) == CONTAMINADA <==> ClassifyPct(p) == CONTAMINADA
    ensures SessionLabel(p) == SEGURA <==> ClassifyPct(p) == SEGURA
    ensures SessionLabel(p) == ANOMALA <==> ClassifyPct(p) == ANOMALA_ACCENTED || ClassifyPct(p) == EN_ATENCION
  {
  }

  /** Normalising the raw label leaves it unchanged, and its display text is
      the table entry of that label. */
  lemma SessionLabelIsStable(level: real, u: UnicodeData)
    requires AsciiStable(u)
    ensures NormalizeClassification(Some(SessionLabel(level)), u) == SessionLabel(level)
    ensures DisplayFromLabel(Some(SessionLabel(level)), u) == DISPLAY_LABELS[SessionLabel(level)]
  {
    CanonicalIsFixed(SessionLabel(level), u);
    DisplayAgreesWithNormalize(Some(SessionLabel(level)), u);
  }

  /** The PCA cells of a written row: the measurement's scores, blanks where
      it has fewer than `n`, cut where it has more. */
  lemma RowPadsAndTruncates(m: Value, n: nat, parseFloat: string -> Option<real>, i: nat)
    requires Row(m, n, parseFloat).Some? && i < n
    ensures m.Dict? && PcaItems(Get(m.fields, "pca_scores", List([]))).Some?
    ensures var items := PcaItems(Get(m.fields, "pca_scores", List([]))).value;
            Row(m, n, parseFloat).value[2 + i] == (if i < |items| then CsvCell(items[i]) else Str(""))
  {
    var f := m.fields;
    var items := PcaItems(Get(f, "pca_scores", List([]))).value;
    var est := DictOrEmpty(Get(f, "ppm_estimations", Dict(map[]))).value;
    var meta := DictOrEmpty(Get(f, "model_meta", Dict(map[]))).value;
    var cells := RawCells(f, items, est, meta, n, parseFloat);
    assert cells[2 + i] == cells[2..n + 2][i];
  }

  /** A percentage of exactly 0 is written as an empty cell, like a missing
      one: `pct_of_limit or pct or None` treats 0.0 as absent. */
  lemma ZeroPctIsBlank(d: map<string, Value>, k: string, parseFloat: string -> Option<real>)
    requires k in d && d[k].Dict? && d[k].fields == map["pct_of_limit" := Float(0.0)]
    ensures SafeGetPct(d, k, parseFloat) == Null
  {
  }

  /** The PCA column names are pairwise distinct. */
  lemma PointNamesDistinct(i: nat, j: nat)
    requires i != j
    ensures PointName(i) != PointName(j)
  {
    if PointName(i) == PointName(j) {
      assert DecimalString(i + 1) == PointName(i)[6..];
      assert DecimalString(j + 1) == PointName(j)[6..];
      DecimalStringInjective(i + 1, j + 1);
    }
  }
}
