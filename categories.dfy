/** The `TelemetryCategory` enumeration (Software/tss/tss_api.py): thirteen
    channels whose string values are the broadcast routing keys and the
    names of the persisted columns. */
module Categories {
  import opened Wrappers

  datatype Category =
    | RoverTelemetry
    | Eva1Telemetry | Eva1Dcu | Eva1Imu
    | Eva2Telemetry | Eva2Dcu | Eva2Imu
    | EvaStatus | EvaError | EvaUia
    | LtvLocation | LtvSignal | LtvErrors

  /** The enumeration in declaration order, the order `for c in
      TelemetryCategory` visits. */
  const AllCategories: seq<Category> :=
    [RoverTelemetry,
     Eva1Telemetry, Eva1Dcu, Eva1Imu,
     Eva2Telemetry, Eva2Dcu, Eva2Imu,
     EvaStatus, EvaError, EvaUia,
     LtvLocation, LtvSignal, LtvErrors]

  const CategoryCount: nat := 13

  /** `category.value`. */
  function Key(c: Category): string
  {
    match c
    case RoverTelemetry => "rover:pr_telemetry"
    case Eva1Telemetry => "eva1:telemetry"
    case Eva1Dcu => "eva1:dcu"
    case Eva1Imu => "eva1:imu"
    case Eva2Telemetry => "eva2:telemetry"
    case Eva2Dcu => "eva2:dcu"
    case Eva2Imu => "eva2:imu"
    case EvaStatus => "eva:status"
    case EvaError => "eva:error"
    case EvaUia => "eva:uia"
    case LtvLocation => "ltv:location"
    case LtvSignal => "ltv:signal"
    case LtvErrors => "ltv:errors"
  }

  /** The position of c in the enumeration. */
  function Index(c: Category): (i: nat)
    ensures i < |AllCategories| && AllCategories[i] == c
  {
    match c
    case RoverTelemetry => 0
    case Eva1Telemetry => 1
    case Eva1Dcu => 2
    case Eva1Imu => 3
    case Eva2Telemetry => 4
    case Eva2Dcu => 5
    case Eva2Imu => 6
    case EvaStatus => 7
    case EvaError => 8
    case EvaUia => 9
    case LtvLocation => 10
    case LtvSignal => 11
    case LtvErrors => 12
  }

  /** The member whose value is s, if any: the websocket endpoint's test
      `category in manager.active_connections` asks whether this exists. */
  function FromKey(s: string): (r: Option<Category>)
    ensures r.Some? ==> Key(r.value) == s
  {
    if s == "rover:pr_telemetry" then Some(RoverTelemetry)
    else if s == "eva1:telemetry" then Some(Eva1Telemetry)
    else if s == "eva1:dcu" then Some(Eva1Dcu)
    else if s == "eva1:imu" then Some(Eva1Imu)
    else if s == "eva2:telemetry" then Some(Eva2Telemetry)
    else if s == "eva2:dcu" then Some(Eva2Dcu)
    else if s == "eva2:imu" then Some(Eva2Imu)
    else if s == "eva:status" then Some(EvaStatus)
    else if s == "eva:error" then Some(EvaError)
    else if s == "eva:uia" then Some(EvaUia)
    else if s == "ltv:location" then Some(LtvLocation)
    else if s == "ltv:signal" then Some(LtvSignal)
    else if s == "ltv:errors" then Some(LtvErrors)
    else None
  }

  /** The set of routing keys, `{c.value for c in TelemetryCategory}`. */
  function CategoryKeys(): set<string>
  {
    set c | c in AllCategories :: Key(c)
  }

  /** Every key names its own category back. */
  lemma FromKeyOfKey(c: Category)
    ensures FromKey(Key(c)) == Some(c)
  {
  }

  /** The values are distinct, so a key identifies one category. */
  lemma KeyInjective(c: Category, d: Category)
    ensures Key(c) == Key(d) <==> c == d
  {
    FromKeyOfKey(c);
    FromKeyOfKey(d);
  }

  /** The enumeration lists every category exactly once. */
  lemma AllCategoriesComplete(c: Category)
    ensures c in AllCategories
    ensures |AllCategories| == CategoryCount
    ensures forall i, j :: 0 <= i < j < |AllCategories| ==> AllCategories[i] != AllCategories[j]
  {
  }

  /** A string is a routing key exactly when it names a category. */
  lemma CategoryKeysExact(s: string)
    ensures s in CategoryKeys() <==> FromKey(s).Some?
  {
    if FromKey(s).Some? {
      assert Key(FromKey(s).value) == s;
      assert FromKey(s).value in AllCategories;
    }
  }

  /** Distinct categories have distinct keys, so the keys of n distinct
      categories are n strings. */
  lemma {:induction false} KeysOfDistinct(cs: seq<Category>)
    requires forall i, j :: 0 <= i < j < |cs| ==> cs[i] != cs[j]
    ensures |set c | c in cs :: Key(c)| == |cs|
  {
    if cs != [] {
      var last := cs[|cs| - 1];
      var init := cs[..|cs| - 1];
      KeysOfDistinct(init);
      var ks := set c | c in init :: Key(c);
      assert (set c | c in cs :: Key(c)) == ks + {Key(last)};
      if Key(last) in ks {
        var d :| d in init && Key(d) == Key(last);
        KeyInjective(d, last);
      }
    }
  }

  lemma CategoryKeysCount()
    ensures |CategoryKeys()| == CategoryCount
  {
    AllCategoriesComplete(RoverTelemetry);
    KeysOfDistinct(AllCategories);
  }
}
