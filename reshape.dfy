/** The per-cycle reshaping of the three raw server documents into one
    `{"data": ...}` record per category (the `data` dict literal in
    `tss_polling`, Software/tss/tss_api.py). */
module Reshape {
  import opened Wrappers
  import opened Json
  import opened Categories

  /** `json.loads(raw) if isinstance(raw, str) else raw`. */
  function Normalise(raw: Json, parse: string -> Option<Json>): (r: Result<Json, ShapeError>)
    ensures !raw.JStr? ==> r == Success(raw)
    ensures raw.JStr? && parse(raw.s).Some? ==> r == Success(parse(raw.s).value)
    ensures raw.JStr? && parse(raw.s).None? ==> r == Failure(StringDocumentUndecodable(raw.s))
  {
    match raw
    case JStr(text) =>
      (match parse(text)
       case Some(v) => Success(v)
       case None => Failure(StringDocumentUndecodable(text)))
    case _ => Success(raw)
  }

  /** The three server documents: command 0, 1 and 2. */
  datatype Doc = RoverDoc | EvaDoc | LtvDoc

  /** Where a category's data sits in the documents:
      `doc.get(key, {})`, or `doc.get(outer, {}).get(inner)`. */
  datatype Path =
    | Top(doc: Doc, key: string)
    | Nested(doc: Doc, outer: string, inner: string)

  /** The single table from category to its place in the documents. */
  function SourcePath(c: Category): Path
  {
    match c
    case RoverTelemetry => Top(RoverDoc, "pr_telemetry")
    case Eva1Telemetry => Nested(EvaDoc, "telemetry", "eva1")
    case Eva1Dcu => Nested(EvaDoc, "dcu", "eva1")
    case Eva1Imu => Nested(EvaDoc, "imu", "eva1")
    case Eva2Telemetry => Nested(EvaDoc, "telemetry", "eva2")
    case Eva2Dcu => Nested(EvaDoc, "dcu", "eva2")
    case Eva2Imu => Nested(EvaDoc, "imu", "eva2")
    case EvaStatus => Top(EvaDoc, "status")
    case EvaError => Top(EvaDoc, "error")
    case EvaUia => Top(EvaDoc, "uia")
    case LtvLocation => Top(LtvDoc, "location")
    case LtvSignal => Top(LtvDoc, "signal")
    case LtvErrors => Top(LtvDoc, "errors")
  }

  function DocOf(d: Doc, rover: Json, eva: Json, ltv: Json): Json
  {
    match d
    case RoverDoc => rover
    case EvaDoc => eva
    case LtvDoc => ltv
  }

  /** The lookup for one path, with `{}` as the outer default and None
      (JSON null) as the inner one. */
  function Lookup(p: Path, rover: Json, eva: Json, ltv: Json): (r: Result<Json, ShapeError>)
  {
    var doc := DocOf(p.doc, rover, eva, ltv);
    match p
    case Top(_, key) => Get(doc, key, EmptyObj)
    case Nested(_, outer, inner) =>
      var mid :- Get(doc, outer, EmptyObj);
      Get(mid, inner, JNull)
  }

  /** A lookup fails exactly when it calls `.get` on a non-dict: the
      document itself, or (nested) a present outer value that is not a dict
      (a JSON null there included). */
  lemma LookupFails(p: Path, rover: Json, eva: Json, ltv: Json)
    ensures Lookup(p, rover, eva, ltv).Failure? <==>
              var doc := DocOf(p.doc, rover, eva, ltv);
              !doc.JObj? ||
              (p.Nested? && p.outer in doc.fields && !doc.fields[p.outer].JObj?)
  {
  }

  /** The value of a lookup: the field, `{}` for a missing top-level key,
      null for a missing nested key. */
  lemma LookupValue(p: Path, rover: Json, eva: Json, ltv: Json)
    requires Lookup(p, rover, eva, ltv).Success?
    ensures var doc := DocOf(p.doc, rover, eva, ltv);
            var v := Lookup(p, rover, eva, ltv).value;
            match p
            case Top(_, key) =>
              v == (if key in doc.fields then doc.fields[key] else EmptyObj)
            case Nested(_, outer, inner) =>
              var mid := if outer in doc.fields then doc.fields[outer] else EmptyObj;
              v == (if inner in mid.fields then mid.fields[inner] else JNull)
  {
  }

  /** The message body of one category: `{"data": x}`. */
  function Record(x: Json): Json
  {
    JObj(map["data" := x])
  }

  /** A present entry of a document that `.get` cannot be called on. */
  predicate NotADict(doc: Json, key: string)
  {
    doc.JObj? && key in doc.fields && !doc.fields[key].JObj?
  }

  /** The documents on which every lookup of the dict literal succeeds. */
  predicate Reshapeable(rover: Json, eva: Json, ltv: Json)
  {
    rover.JObj? && eva.JObj? && ltv.JObj? &&
    !NotADict(eva, "telemetry") && !NotADict(eva, "dcu") && !NotADict(eva, "imu")
  }

  /** The exception the dict literal raises: its entries are evaluated in
      enumeration order (rover, the suit's telemetry/dcu/imu lookups, the
      status/error/uia lookups, then the vehicle), so the first `.get` on a
      non-dict in that order is the one reported. */
  function FirstShapeError(rover: Json, eva: Json, ltv: Json): Option<ShapeError>
  {
    if !rover.JObj? then Some(NoGetMethod(rover))
    else if !eva.JObj? then Some(NoGetMethod(eva))
    else if NotADict(eva, "telemetry") then Some(NoGetMethod(eva.fields["telemetry"]))
    else if NotADict(eva, "dcu") then Some(NoGetMethod(eva.fields["dcu"]))
    else if NotADict(eva, "imu") then Some(NoGetMethod(eva.fields["imu"]))
    else if !ltv.JObj? then Some(NoGetMethod(ltv))
    else None
  }

  /** The reshaped cycle data: one `{"data": ...}` record per category. */
  function ReshapeAll(rover: Json, eva: Json, ltv: Json): Result<map<Category, Json>, ShapeError>
  {
    match FirstShapeError(rover, eva, ltv)
    case Some(e) => Failure(e)
    case None =>
      Success(map c | c in AllCategories :: Record(ValueOr(Lookup(SourcePath(c), rover, eva, ltv))))
  }

  function ValueOr(r: Result<Json, ShapeError>): Json
  {
    if r.Success? then r.value else JNull
  }

  /** No first error exactly when the documents are reshapeable. */
  lemma FirstShapeErrorNone(rover: Json, eva: Json, ltv: Json)
    ensures FirstShapeError(rover, eva, ltv).None? <==> Reshapeable(rover, eva, ltv)
  {
  }

  /** Every category's lookup succeeds on reshapeable documents;
      `FirstShapeErrorIsLookup` names the lookup that fails on the others. */
  lemma LookupSucceeds(rover: Json, eva: Json, ltv: Json, c: Category)
    ensures Reshapeable(rover, eva, ltv) ==> Lookup(SourcePath(c), rover, eva, ltv).Success?
  {
    LookupFails(SourcePath(c), rover, eva, ltv);
  }

  /** The reported error is the failure of an actual lookup of the
      literal, and of the first one in enumeration order. */
  lemma FirstShapeErrorIsLookup(rover: Json, eva: Json, ltv: Json) returns (c: Category)
    requires FirstShapeError(rover, eva, ltv).Some?
    ensures Lookup(SourcePath(c), rover, eva, ltv) == Failure(FirstShapeError(rover, eva, ltv).value)
    ensures forall i :: 0 <= i < Index(c) ==> Lookup(SourcePath(AllCategories[i]), rover, eva, ltv).Success?
  {
    c := if !rover.JObj? then RoverTelemetry
         else if !eva.JObj? || NotADict(eva, "telemetry") then Eva1Telemetry
         else if NotADict(eva, "dcu") then Eva1Dcu
         else if NotADict(eva, "imu") then Eva1Imu
         else LtvLocation;
    forall i | 0 <= i < Index(c)
      ensures Lookup(SourcePath(AllCategories[i]), rover, eva, ltv).Success?
    {
      LookupFails(SourcePath(AllCategories[i]), rover, eva, ltv);
    }
  }

  /** A successful reshape has an entry `{"data": ...}` for exactly the
      thirteen categories, holding what that category's lookup found. */
  lemma ReshapeComplete(rover: Json, eva: Json, ltv: Json, c: Category)
    requires ReshapeAll(rover, eva, ltv).Success?
    ensures ReshapeAll(rover, eva, ltv).value.Keys == set d | d in AllCategories
    ensures Lookup(SourcePath(c), rover, eva, ltv).Success?
    ensures ReshapeAll(rover, eva, ltv).value[c] == Record(Lookup(SourcePath(c), rover, eva, ltv).value)
  {
    AllCategoriesComplete(c);
    FirstShapeErrorNone(rover, eva, ltv);
    LookupSucceeds(rover, eva, ltv, c);
  }

  /** Reshaping fails exactly when some document is not a dict, or the
      suit document has a telemetry/dcu/imu entry that is not a dict. */
  lemma ReshapeSucceedsIff(rover: Json, eva: Json, ltv: Json)
    ensures ReshapeAll(rover, eva, ltv).Success? <==> Reshapeable(rover, eva, ltv)
  {
    FirstShapeErrorNone(rover, eva, ltv);
  }

  /** A rover document `{"pr_telemetry": {"speed": 5}}`, the reply read
      after the command-0 request, gives the rover record
      `{"data": {"speed": 5}}`. */
  lemma RoverScenario(eva: Json, ltv: Json)
    requires ReshapeAll(JObj(map["pr_telemetry" := JObj(map["speed" := JInt(5)])]), eva, ltv).Success?
    ensures ReshapeAll(JObj(map["pr_telemetry" := JObj(map["speed" := JInt(5)])]), eva, ltv).value[RoverTelemetry]
            == Record(JObj(map["speed" := JInt(5)]))
  {
    ReshapeComplete(JObj(map["pr_telemetry" := JObj(map["speed" := JInt(5)])]), eva, ltv, RoverTelemetry);
  }

  /** A suit document `{"status": {}}` without "error" does not fail the
      cycle: the error record is `{"data": {}}`, and the per-suit records
      are `{"data": null}`. */
  lemma MissingErrorScenario(rover: Json, ltv: Json)
    requires rover.JObj? && ltv.JObj?
    ensures ReshapeAll(rover, JObj(map["status" := EmptyObj]), ltv).Success?
    ensures ReshapeAll(rover, JObj(map["status" := EmptyObj]), ltv).value[EvaError] == Record(EmptyObj)
    ensures ReshapeAll(rover, JObj(map["status" := EmptyObj]), ltv).value[Eva1Telemetry] == Record(JNull)
  {
    var eva := JObj(map["status" := EmptyObj]);
    ReshapeSucceedsIff(rover, eva, ltv);
    ReshapeComplete(rover, eva, ltv, EvaError);
    ReshapeComplete(rover, eva, ltv, Eva1Telemetry);
  }

  /** In the same suit document, every per-suit record (telemetry, dcu and
      imu of either suit) is `{"data": null}`. */
  lemma MissingSuitEntriesScenario(rover: Json, ltv: Json, c: Category)
    requires rover.JObj? && ltv.JObj? && SourcePath(c).Nested?
    ensures ReshapeAll(rover, JObj(map["status" := EmptyObj]), ltv).Success?
    ensures ReshapeAll(rover, JObj(map["status" := EmptyObj]), ltv).value[c] == Record(JNull)
  {
    var eva := JObj(map["status" := EmptyObj]);
    ReshapeSucceedsIff(rover, eva, ltv);
    ReshapeComplete(rover, eva, ltv, c);
  }
}
