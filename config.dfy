/**
 * Configuration resolution of src/server/config/index.ts: the base object
 * with the port taken from PORT, the environment overlay chosen by NODE_ENV,
 * and the overlay deep-merged into the base. The three overlay files are not
 * part of the model and are passed in as values.
 */
module Config {
  import opened Wrappers
  import opened Json
  import NumberParsing
  import DeepMerge

  /** The port used when PORT is unset, empty or not a number. */
  const DefaultPort := 3000

  /**
   * `PORT && !isNaN(parseInt(PORT, 10)) ? parseInt(PORT, 10) : 3000`, with an
   * unset variable as `None`. No range check is applied.
   */
  function ResolvePort(portVar: Option<string>): (port: int)
    ensures portVar.None? || NumberParsing.ParseInt(portVar.value).None? ==> port == DefaultPort
    ensures portVar.Some? && NumberParsing.ParseInt(portVar.value).Some? ==>
              port == NumberParsing.ParseInt(portVar.value).value
  {
    match portVar
    case None => DefaultPort
    case Some(s) =>
      if s != "" && NumberParsing.ParseInt(s).Some? then NumberParsing.ParseInt(s).value
      else DefaultPort
  }

  /** The three environment overlays. */
  datatype Environment = Development | Production | Testing

  /** The NODE_ENV switch: production unless the name is one of the four others. */
  function SelectEnvironment(nodeEnv: Option<string>): (e: Environment)
    ensures e == Testing <==> nodeEnv == Some("test") || nodeEnv == Some("testing")
    ensures e == Development <==> nodeEnv == Some("development") || nodeEnv == Some("dev")
    ensures e == Production <==>
              nodeEnv !in {Some("test"), Some("testing"), Some("development"), Some("dev")}
  {
    match nodeEnv
    case Some("prod") => Production
    case Some("production") => Production
    case Some("test") => Testing
    case Some("testing") => Testing
    case Some("development") => Development
    case Some("dev") => Development
    case _ => Production
  }

  /** The contents of development.js, production.js and test.js. */
  datatype Overlays = Overlays(development: Value, production: Value, test: Value) {
    /** Each overlay is a well-formed object (the EnvironnementConfig type). */
    predicate Valid() {
      && development.Obj? && WellFormed(development)
      && production.Obj? && WellFormed(production)
      && test.Obj? && WellFormed(test)
    }

    function For(e: Environment): (v: Value)
      ensures Valid() ==> v.Obj? && WellFormed(v)
    {
      match e
      case Development => development
      case Production => production
      case Testing => test
    }
  }

  /** `databaseOptions.pool`: the connection-pool bounds. */
  function PoolDefaults(): (v: Value)
    ensures WellFormed(v)
  {
    Obj(["max", "min", "idle"], map["max" := Num(5), "min" := Num(0), "idle" := Num(10000)])
  }

  /** `databaseOptions.define.defaultScope`: leave out the two timestamp columns. */
  function DefaultScope(): (v: Value)
    ensures WellFormed(v)
  {
    var exclude := List([Str("createdAt"), Str("updatedAt")]);
    assert WellFormed(exclude);
    var attributes := Obj(["exclude"], map["exclude" := exclude]);
    assert WellFormed(attributes);
    Obj(["attributes"], map["attributes" := attributes])
  }

  /** `databaseOptions.define`: the options applied to every model definition. */
  function DefineDefaults(): (v: Value)
    ensures WellFormed(v)
  {
    Obj(["underscored", "defaultScope"],
        map["underscored" := Bool(true), "defaultScope" := DefaultScope()])
  }

  /** `databaseOptions`: the global Sequelize options. */
  function DatabaseOptions(): (v: Value)
    ensures WellFormed(v)
  {
    Obj(["dialect", "pool", "quoteIdentifiers", "define"],
        map["dialect" := Str("postgres"), "pool" := PoolDefaults(),
            "quoteIdentifiers" := Bool(false), "define" := DefineDefaults()])
  }

  /** The settings common to every environment, before any overlay. */
  function BaseConfig(port: int): (c: Value)
    ensures c.Obj? && WellFormed(c)
  {
    Obj(["port", "databaseOptions"], map["port" := Num(port), "databaseOptions" := DatabaseOptions()])
  }

  /** The exported configuration, as a function of the environment. */
  function ResolvedConfig(portVar: Option<string>, nodeEnv: Option<string>, overlays: Overlays): (c: Value)
    ensures overlays.Valid() ==> c.Obj? && WellFormed(c)
  {
    var base := BaseConfig(ResolvePort(portVar));
    var settings := overlays.For(SelectEnvironment(nodeEnv));
    assert overlays.Valid() ==> DeepMerge.Merge(base, settings).Obj? && WellFormed(DeepMerge.Merge(base, settings)) by {
      if overlays.Valid() {
        DeepMerge.MergeWellFormed(base, settings);
      }
    }
    DeepMerge.Merge(base, settings)
  }

  /**
   * The module's top-level code: build `config`, let the switch assign
   * `environmentSettings`, then merge the settings into `config`.
   */
  method LoadConfig(portVar: Option<string>, nodeEnv: Option<string>, overlays: Overlays)
    returns (config: Value)
    requires overlays.Valid()
    ensures config == ResolvedConfig(portVar, nodeEnv, overlays)
    ensures config.Obj? && WellFormed(config)
  {
    config := BaseConfig(ResolvePort(portVar));
    var environmentSettings: Value;
    if nodeEnv == Some("prod") || nodeEnv == Some("production") {
      environmentSettings := overlays.production;
    } else if nodeEnv == Some("test") || nodeEnv == Some("testing") {
      environmentSettings := overlays.test;
    } else if nodeEnv == Some("development") || nodeEnv == Some("dev") {
      environmentSettings := overlays.development;
    } else {
      environmentSettings := overlays.production;
    }
    assert environmentSettings == overlays.For(SelectEnvironment(nodeEnv));
    config := DeepMerge.Merge(config, environmentSettings);
  }

  /** Leading white space, a sign, a digit run, then junk: the port is the signed digits. */
  lemma PortFromLeadingDigits(ws: string, sign: string, digits: string, rest: string)
    requires NumberParsing.AllWhiteSpace(ws)
    requires sign == "" || sign == "+" || sign == "-"
    requires digits != [] && NumberParsing.AllDigits(digits)
    requires rest == [] || !NumberParsing.IsDigit(rest[0])
    ensures ResolvePort(Some(ws + sign + digits + rest))
         == (if sign == "-" then -1 else 1) * NumberParsing.DigitsValue(digits)
  {
    NumberParsing.ParseIntLeadingDigits(ws, sign, digits, rest);
  }

  /** Any integer written in decimal is the port, whatever its range. */
  lemma PortOfDecimal(n: int, rest: string)
    requires rest == [] || !NumberParsing.IsDigit(rest[0])
    ensures ResolvePort(Some(NumberParsing.Decimal(n) + rest)) == n
  {
    NumberParsing.ParseIntDecimal(n, rest);
  }

  /** The port falls back to 3000 when PORT is unset, empty or starts with no digit. */
  lemma PortFallbackExamples()
    ensures ResolvePort(None) == 3000 && ResolvePort(Some("")) == 3000
    ensures ResolvePort(Some("abc")) == 3000
  {
    assert "abc" == "" + "" + "abc";
    NumberParsing.ParseIntNoDigits("", "", "abc");
  }

  /** Trailing junk after the digits is ignored. */
  lemma PortIgnoresTrailingJunk()
    ensures ResolvePort(Some("8080abc")) == 8080
  {
    assert "8080abc" == NumberParsing.Decimal(8080) + "abc" by {
      assert NumberParsing.NatDecimal(8080) == "8080";
    }
    PortOfDecimal(8080, "abc");
  }

  /** No range check is applied to the port: a negative value is kept. */
  lemma PortMayBeNegative()
    ensures ResolvePort(Some("-1")) == -1
  {
    assert "-1" == NumberParsing.Decimal(-1) + "";
    PortOfDecimal(-1, "");
  }

  /** No range check is applied to the port: a value above 65535 is kept. */
  lemma PortMayExceedRange()
    ensures ResolvePort(Some("70000")) == 70000
  {
    assert "70000" == NumberParsing.Decimal(70000) + "" by {
      assert NumberParsing.NatDecimal(70000) == "70000";
    }
    PortOfDecimal(70000, "");
  }

  /** Any unrecognised NODE_ENV, unset included, resolves like "production". */
  lemma UnknownEnvironmentIsProduction(portVar: Option<string>, nodeEnv: Option<string>, overlays: Overlays)
    requires nodeEnv !in {Some("test"), Some("testing"), Some("development"), Some("dev")}
    ensures ResolvedConfig(portVar, nodeEnv, overlays) == ResolvedConfig(portVar, Some("production"), overlays)
    ensures ResolvedConfig(portVar, nodeEnv, overlays)
         == DeepMerge.Merge(BaseConfig(ResolvePort(portVar)), overlays.production)
  {
  }

  /** Every leaf the selected overlay sets has the overlay's value. */
  lemma OverlaySettingsWin(portVar: Option<string>, nodeEnv: Option<string>, overlays: Overlays,
                           path: seq<string>, v: Value)
    requires Lookup(overlays.For(SelectEnvironment(nodeEnv)), path) == Some(v) && !v.Obj?
    ensures Lookup(ResolvedConfig(portVar, nodeEnv, overlays), path) == Some(v)
  {
    DeepMerge.OverlayLeafWins(BaseConfig(ResolvePort(portVar)), overlays.For(SelectEnvironment(nodeEnv)), path, v);
  }

  /** Base settings the selected overlay does not reach keep their default. */
  lemma DefaultsSurvive(portVar: Option<string>, nodeEnv: Option<string>, overlays: Overlays,
                        path: seq<string>)
    requires DeepMerge.Absent(overlays.For(SelectEnvironment(nodeEnv)), path)
    ensures Lookup(ResolvedConfig(portVar, nodeEnv, overlays), path)
         == Lookup(BaseConfig(ResolvePort(portVar)), path)
  {
    DeepMerge.BaseSurvives(BaseConfig(ResolvePort(portVar)), overlays.For(SelectEnvironment(nodeEnv)), path);
  }

  /** The port keeps the value resolved from PORT unless the overlay sets one. */
  lemma PortSurvives(portVar: Option<string>, nodeEnv: Option<string>, overlays: Overlays)
    requires DeepMerge.Absent(overlays.For(SelectEnvironment(nodeEnv)), ["port"])
    ensures Lookup(ResolvedConfig(portVar, nodeEnv, overlays), ["port"]) == Some(Num(ResolvePort(portVar)))
  {
    DefaultsSurvive(portVar, nodeEnv, overlays, ["port"]);
    BasePort(ResolvePort(portVar));
  }

  /** Where the base settings keep the port. */
  lemma BasePort(port: int)
    ensures Lookup(BaseConfig(port), ["port"]) == Some(Num(port))
  {
    assert ["port"] == ["port"] + [];
    LookupStep(BaseConfig(port), "port", []);
  }

  /** Where the base settings keep the pool minimum. */
  lemma BasePoolMin(port: int)
    ensures Lookup(BaseConfig(port), ["databaseOptions", "pool", "min"]) == Some(Num(0))
  {
    assert ["databaseOptions", "pool", "min"] == ["databaseOptions"] + (["pool"] + (["min"] + []));
    LookupStep(BaseConfig(port), "databaseOptions", ["pool"] + (["min"] + []));
    LookupStep(DatabaseOptions(), "pool", ["min"] + []);
    LookupStep(PoolDefaults(), "min", []);
  }

  /** Where the base settings keep the dialect. */
  lemma BaseDialect(port: int)
    ensures Lookup(BaseConfig(port), ["databaseOptions", "dialect"]) == Some(Str("postgres"))
  {
    assert ["databaseOptions", "dialect"] == ["databaseOptions"] + (["dialect"] + []);
    LookupStep(BaseConfig(port), "databaseOptions", ["dialect"] + []);
    LookupStep(DatabaseOptions(), "dialect", []);
  }

  /** `databaseOptions.pool.min` stays 0 unless the overlay sets it. */
  lemma PoolMinSurvives(portVar: Option<string>, nodeEnv: Option<string>, overlays: Overlays)
    requires DeepMerge.Absent(overlays.For(SelectEnvironment(nodeEnv)), ["databaseOptions", "pool", "min"])
    ensures Lookup(ResolvedConfig(portVar, nodeEnv, overlays), ["databaseOptions", "pool", "min"]) == Some(Num(0))
  {
    DefaultsSurvive(portVar, nodeEnv, overlays, ["databaseOptions", "pool", "min"]);
    BasePoolMin(ResolvePort(portVar));
  }

  /** `databaseOptions.dialect` stays 'postgres' unless the overlay sets it. */
  lemma DialectSurvives(portVar: Option<string>, nodeEnv: Option<string>, overlays: Overlays)
    requires DeepMerge.Absent(overlays.For(SelectEnvironment(nodeEnv)), ["databaseOptions", "dialect"])
    ensures Lookup(ResolvedConfig(portVar, nodeEnv, overlays), ["databaseOptions", "dialect"]) == Some(Str("postgres"))
  {
    DefaultsSurvive(portVar, nodeEnv, overlays, ["databaseOptions", "dialect"]);
    BaseDialect(ResolvePort(portVar));
  }
}
