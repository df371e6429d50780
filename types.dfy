/** Record shapes of a trend-radar report and the five driving forces (types.ts). */
module Types {

  /** An optional value: a JavaScript `undefined`/`null` is `None`. */
  datatype Option<+T> = None | Some(value: T)

  /** JavaScript truthiness of an optional string: absent and "" are both falsy. */
  predicate Truthy(o: Option<string>) {
    o.Some? && o.value != ""
  }

  /** The five fixed analytical categories every report addresses. */
  datatype DrivingForce = Energy | Labor | Geopolitics | Assets | Agency {

    /** The enum member's string value, which is also the key used in `forces`. */
    function Name(): (n: string)
      ensures n != ""
    {
      match this
      case Energy => "能源與物理約束"
      case Labor => "勞動力與自動化"
      case Geopolitics => "地緣政治離婚"
      case Assets => "數位化實體資產"
      case Agency => "智能代理化"
    }
  }

  /** `Object.values(DrivingForce)`: the members in declaration order. */
  const AllForces: seq<DrivingForce> := [Energy, Labor, Geopolitics, Assets, Agency]

  /** Every force is listed exactly once, and distinct forces have distinct names. */
  lemma AllForcesEnumerates()
    ensures |AllForces| == 5
    ensures forall f: DrivingForce :: f in AllForces
    ensures forall i, j :: 0 <= i < j < |AllForces| ==> AllForces[i].Name() != AllForces[j].Name()
  {
    forall f: DrivingForce ensures f in AllForces {
      match f
      case Energy => assert AllForces[0] == f;
      case Labor => assert AllForces[1] == f;
      case Geopolitics => assert AllForces[2] == f;
      case Assets => assert AllForces[3] == f;
      case Agency => assert AllForces[4] == f;
    }
  }

  datatype ForceDetail = ForceDetail(
    description: string,
    detailedAnalysis: string,
    empiricalData: string,
    futurePath: string)

  datatype StockSuggestion = StockSuggestion(
    ticker: string,
    name: string,
    logic: string,
    risk: string,
    riskLevel: int,
    correlatedForce: DrivingForce)

  datatype InvestmentAnalysis = InvestmentAnalysis(
    taiwanStocks: seq<StockSuggestion>,
    usStocks: seq<StockSuggestion>,
    strategicSummary: string)

  /** A citation; both parts are optional in the declared type. */
  datatype GroundingSource = GroundingSource(title: Option<string>, uri: Option<string>)

  /** The `forces` object: one detail per driving force. */
  datatype Forces = Forces(
    energy: ForceDetail,
    labor: ForceDetail,
    geopolitics: ForceDetail,
    assets: ForceDetail,
    agency: ForceDetail)
  {
    /** `forces[key]` */
    function Get(key: DrivingForce): ForceDetail {
      match key
      case Energy => energy
      case Labor => labor
      case Geopolitics => geopolitics
      case Assets => assets
      case Agency => agency
    }
  }

  datatype Inversion = Inversion(falsification: string, physicalLimits: string)

  datatype DataFreshness = DataFreshness(score: int, reason: string, lastUpdatedInfo: string)

  /**
   * A report as the service returns it. The declared type makes `id` a
   * required string, but nothing in the service sets it, so it is whatever
   * the parsed payload held.
   */
  datatype TrendAnalysis = TrendAnalysis(
    id: Option<string>,
    title: string,
    summary: string,
    thought: Option<string>,
    forces: Forces,
    inversion: Inversion,
    investments: InvestmentAnalysis,
    sources: seq<GroundingSource>,
    timestamp: string,
    dataFreshness: DataFreshness)
}
