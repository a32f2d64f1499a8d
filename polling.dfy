/** One cycle of `tss_polling` and the polling loop around it
    (Software/tss/tss_api.py): fetch the three documents, reshape them,
    persist the row, then broadcast every category with the cycle's
    timestamp. Any exception ends that cycle early and the loop goes on. */
module Polling {
  import opened Wrappers
  import opened Json
  import opened Wire
  import opened Client
  import opened Categories
  import opened Registry
  import opened Reshape
  import opened Storage

  /** The server commands for the rover, suit and vehicle documents. */
  const RoverCommand: int := 0
  const EvaCommand: int := 1
  const LtvCommand: int := 2

  /** What the outside world does during one cycle: the three exchanges,
      the `int(time.time())` reading taken after them, and the
      connections whose sends fail. */
  datatype CycleInput = CycleInput(rover: Exchange, eva: Exchange, ltv: Exchange,
                                   now: int, failing: set<Conn>)

  /** The exception that ended a cycle, as the loop's handler logs it. */
  datatype CycleError =
    | FetchFailed(fetch: FetchError)
    | ShapeFailed(shape: ShapeError)
    | StoreFailed(store: StorageError)

  /** The state the polling task acts on: the database file, the
      registry, every broadcast made so far and every logged error. */
  datatype PollState = PollState(db: Option<Table>, registry: map<string, set<Conn>>,
                                 deliveries: seq<Delivery>, errors: seq<CycleError>)

  /** The three fetches, in order; the first exception stops the rest. */
  function FetchAll(socket: Option<Socket>, input: CycleInput,
                    utf8: seq<byte> -> Option<string>, parse: string -> Option<Json>)
    : (r: Result<(Json, Json, Json), CycleError>)
    ensures r.Success? <==>
              Fetch(socket, RoverCommand, input.rover, utf8, parse).Success? &&
              Fetch(socket, EvaCommand, input.eva, utf8, parse).Success? &&
              Fetch(socket, LtvCommand, input.ltv, utf8, parse).Success?
    ensures r.Success? ==>
              r.value == (Fetch(socket, RoverCommand, input.rover, utf8, parse).value,
                          Fetch(socket, EvaCommand, input.eva, utf8, parse).value,
                          Fetch(socket, LtvCommand, input.ltv, utf8, parse).value)
    ensures Fetch(socket, RoverCommand, input.rover, utf8, parse).Failure? ==>
              r == Failure(FetchFailed(Fetch(socket, RoverCommand, input.rover, utf8, parse).error))
    ensures Fetch(socket, RoverCommand, input.rover, utf8, parse).Success? &&
            Fetch(socket, EvaCommand, input.eva, utf8, parse).Failure? ==>
              r == Failure(FetchFailed(Fetch(socket, EvaCommand, input.eva, utf8, parse).error))
    ensures Fetch(socket, RoverCommand, input.rover, utf8, parse).Success? &&
            Fetch(socket, EvaCommand, input.eva, utf8, parse).Success? &&
            Fetch(socket, LtvCommand, input.ltv, utf8, parse).Failure? ==>
              r == Failure(FetchFailed(Fetch(socket, LtvCommand, input.ltv, utf8, parse).error))
  {
    match Fetch(socket, RoverCommand, input.rover, utf8, parse)
    case Failure(e) => Failure(FetchFailed(e))
    case Success(rover) =>
      match Fetch(socket, EvaCommand, input.eva, utf8, parse)
      case Failure(e) => Failure(FetchFailed(e))
      case Success(eva) =>
        match Fetch(socket, LtvCommand, input.ltv, utf8, parse)
        case Failure(e) => Failure(FetchFailed(e))
        case Success(ltv) => Success((rover, eva, ltv))
  }

  /** The requests a cycle puts on the wire, in order: commands 0, 1 and 2,
      each stamped with its own clock reading, stopping after the first
      fetch that raises. */
  function CycleRequests(socket: Option<Socket>, input: CycleInput,
                         utf8: seq<byte> -> Option<string>, parse: string -> Option<Json>)
    : (r: seq<seq<byte>>)
    ensures |r| <= 3
    ensures |r| >= 1 ==> DecodeRequest(r[0]) == Some((input.rover.clock, RoverCommand))
    ensures |r| >= 2 ==> DecodeRequest(r[1]) == Some((input.eva.clock, EvaCommand))
    ensures |r| == 3 ==> DecodeRequest(r[2]) == Some((input.ltv.clock, LtvCommand))
    ensures |r| >= 1 <==> SentRequest(socket, RoverCommand, input.rover).Some?
    ensures |r| >= 2 <==> Fetch(socket, RoverCommand, input.rover, utf8, parse).Success? &&
                          SentRequest(socket, EvaCommand, input.eva).Some?
    ensures |r| == 3 <==> Fetch(socket, RoverCommand, input.rover, utf8, parse).Success? &&
                          Fetch(socket, EvaCommand, input.eva, utf8, parse).Success? &&
                          SentRequest(socket, LtvCommand, input.ltv).Some?
  {
    match SentRequest(socket, RoverCommand, input.rover)
    case None => []
    case Some(p0) =>
      if Fetch(socket, RoverCommand, input.rover, utf8, parse).Failure? then [p0]
      else
        match SentRequest(socket, EvaCommand, input.eva)
        case None => [p0]
        case Some(p1) =>
          if Fetch(socket, EvaCommand, input.eva, utf8, parse).Failure? then [p0, p1]
          else
            match SentRequest(socket, LtvCommand, input.ltv)
            case None => [p0, p1]
            case Some(p2) => [p0, p1, p2]
  }

  /** A cycle whose fetches all succeed has sent exactly the three
      requests, commands 0, 1 and 2 in that order. */
  lemma FetchAllSendsThree(socket: Option<Socket>, input: CycleInput,
                           utf8: seq<byte> -> Option<string>, parse: string -> Option<Json>)
    requires FetchAll(socket, input, utf8, parse).Success?
    ensures var r := CycleRequests(socket, input, utf8, parse);
            |r| == 3 &&
            DecodeRequest(r[0]).value.1 == RoverCommand &&
            DecodeRequest(r[1]).value.1 == EvaCommand &&
            DecodeRequest(r[2]).value.1 == LtvCommand
  {
  }

  function AsCycleError<T>(r: Result<T, ShapeError>): Result<T, CycleError>
  {
    match r
    case Success(v) => Success(v)
    case Failure(e) => Failure(ShapeFailed(e))
  }

  /** Fetching, string-document decoding and reshaping: the cycle's data. */
  function CollectCycle(socket: Option<Socket>, input: CycleInput,
                        utf8: seq<byte> -> Option<string>, parse: string -> Option<Json>)
    : Result<map<Category, Json>, CycleError>
  {
    var (rawRover, rawEva, rawLtv) :- FetchAll(socket, input, utf8, parse);
    var rover :- AsCycleError(Normalise(rawRover, parse));
    var eva :- AsCycleError(Normalise(rawEva, parse));
    var ltv :- AsCycleError(Normalise(rawLtv, parse));
    AsCycleError(ReshapeAll(rover, eva, ltv))
  }

  predicate RecordsAreDicts(data: map<Category, Json>)
  {
    forall c :: c in data ==> data[c].JObj?
  }

  /** What the reshaped data always looks like: a dict record for every
      category. */
  predicate WellCollected(collected: Result<map<Category, Json>, CycleError>)
  {
    collected.Success? ==> RecordsAreDicts(collected.value) && forall c: Category :: c in collected.value
  }

  lemma CollectedRecords(socket: Option<Socket>, input: CycleInput,
                         utf8: seq<byte> -> Option<string>, parse: string -> Option<Json>)
    ensures WellCollected(CollectCycle(socket, input, utf8, parse))
  {
    if CollectCycle(socket, input, utf8, parse).Success? {
      var data := CollectCycle(socket, input, utf8, parse).value;
      var (rawRover, rawEva, rawLtv) := FetchAll(socket, input, utf8, parse).value;
      var rover, eva, ltv := Normalise(rawRover, parse).value, Normalise(rawEva, parse).value,
                             Normalise(rawLtv, parse).value;
      assert data == ReshapeAll(rover, eva, ltv).value;
      forall c | c in data ensures data[c].JObj? {
        ReshapeComplete(rover, eva, ltv, c);
      }
      forall c: Category ensures c in data {
        ReshapeComplete(rover, eva, ltv, c);
        AllCategoriesComplete(c);
      }
    }
  }

  /** A collected cycle is the reshape of the three normalised documents. */
  lemma CollectedParts(socket: Option<Socket>, input: CycleInput,
                       utf8: seq<byte> -> Option<string>, parse: string -> Option<Json>)
    returns (rover: Json, eva: Json, ltv: Json)
    requires CollectCycle(socket, input, utf8, parse).Success?
    ensures FetchAll(socket, input, utf8, parse).Success?
    ensures Normalise(FetchAll(socket, input, utf8, parse).value.0, parse) == Success(rover)
    ensures Normalise(FetchAll(socket, input, utf8, parse).value.1, parse) == Success(eva)
    ensures Normalise(FetchAll(socket, input, utf8, parse).value.2, parse) == Success(ltv)
    ensures CollectCycle(socket, input, utf8, parse) == AsCycleError(ReshapeAll(rover, eva, ltv))
  {
    var (rawRover, rawEva, rawLtv) := FetchAll(socket, input, utf8, parse).value;
    rover, eva, ltv := Normalise(rawRover, parse).value, Normalise(rawEva, parse).value,
                       Normalise(rawLtv, parse).value;
  }

  /** Once the three fetches succeed, the string documents are decoded in
      the order rover, suit, vehicle, and the first that fails to decode is
      the cycle's error. */
  lemma NormaliseFailureLogged(socket: Option<Socket>, input: CycleInput,
                               utf8: seq<byte> -> Option<string>, parse: string -> Option<Json>)
    requires FetchAll(socket, input, utf8, parse).Success?
    ensures var (rawRover, rawEva, rawLtv) := FetchAll(socket, input, utf8, parse).value;
            Normalise(rawRover, parse).Failure? ==>
              CollectCycle(socket, input, utf8, parse) == Failure(ShapeFailed(Normalise(rawRover, parse).error))
    ensures var (rawRover, rawEva, rawLtv) := FetchAll(socket, input, utf8, parse).value;
            Normalise(rawRover, parse).Success? && Normalise(rawEva, parse).Failure? ==>
              CollectCycle(socket, input, utf8, parse) == Failure(ShapeFailed(Normalise(rawEva, parse).error))
    ensures var (rawRover, rawEva, rawLtv) := FetchAll(socket, input, utf8, parse).value;
            Normalise(rawRover, parse).Success? && Normalise(rawEva, parse).Success? &&
            Normalise(rawLtv, parse).Failure? ==>
              CollectCycle(socket, input, utf8, parse) == Failure(ShapeFailed(Normalise(rawLtv, parse).error))
  {
  }

  /** The rover record of a collected cycle is `{"data": ...}` around the
      "pr_telemetry" entry of the reply read after the command-0 request. */
  lemma RoverRecordFromCommandZero(socket: Option<Socket>, input: CycleInput,
                                   utf8: seq<byte> -> Option<string>, parse: string -> Option<Json>)
    requires CollectCycle(socket, input, utf8, parse).Success?
    ensures Fetch(socket, RoverCommand, input.rover, utf8, parse).Success?
    ensures Normalise(Fetch(socket, RoverCommand, input.rover, utf8, parse).value, parse).Success?
    ensures var rover := Normalise(Fetch(socket, RoverCommand, input.rover, utf8, parse).value, parse).value;
            Get(rover, "pr_telemetry", EmptyObj).Success? &&
            RoverTelemetry in CollectCycle(socket, input, utf8, parse).value &&
            CollectCycle(socket, input, utf8, parse).value[RoverTelemetry]
              == Record(Get(rover, "pr_telemetry", EmptyObj).value)
  {
    var rover, eva, ltv := CollectedParts(socket, input, utf8, parse);
    ReshapeComplete(rover, eva, ltv, RoverTelemetry);
  }

  /** `category_data["timestamp"] = current_time` on the record's dict. */
  function Message(record: Json, now: int): (m: Json)
    requires record.JObj?
    ensures m.JObj? && m.fields.Keys == record.fields.Keys + {"timestamp"}
    ensures m.fields["timestamp"] == JInt(now)
    ensures forall k :: k in record.fields && k != "timestamp" ==> m.fields[k] == record.fields[k]
  {
    JObj(record.fields["timestamp" := JInt(now)])
  }

  /** The broadcast loop over `cats`: each category present in the data
      is broadcast on its key with the shared timestamp. */
  function BroadcastAll(reg: map<string, set<Conn>>, cats: seq<Category>, data: map<Category, Json>,
                        now: int, failing: set<Conn>): (r: (map<string, set<Conn>>, seq<Delivery>))
    requires RecordsAreDicts(data)
    decreases |cats|
  {
    if cats == [] then (reg, [])
    else
      var (before, ds) := BroadcastAll(reg, cats[..|cats| - 1], data, now, failing);
      var c := cats[|cats| - 1];
      if c in data then
        (Pruned(before, Key(c), failing),
         ds + [Delivery(c, Message(data[c], now), Recipients(before, Key(c), failing))])
      else (before, ds)
  }

  /** ds holds one delivery per category of cats, in that order, each
      carrying that category's record stamped with now. */
  predicate InOrder(ds: seq<Delivery>, cats: seq<Category>, data: map<Category, Json>, now: int)
  {
    |ds| == |cats| &&
    forall i :: 0 <= i < |cats| ==>
      cats[i] in data && data[cats[i]].JObj? &&
      ds[i].category == cats[i] && ds[i].message == Message(data[cats[i]], now)
  }

  lemma InOrderSnoc(ds: seq<Delivery>, cats: seq<Category>, data: map<Category, Json>, now: int,
                    d: Delivery, c: Category)
    requires InOrder(ds, cats, data, now)
    requires c in data && data[c].JObj? && d.category == c && d.message == Message(data[c], now)
    ensures InOrder(ds + [d], cats + [c], data, now)
  {
    forall i | 0 <= i < |cats|
      ensures (ds + [d])[i] == ds[i] && (cats + [c])[i] == cats[i]
    {
    }
  }

  /** When every category is present, the loop makes one broadcast per
      category, in order, each carrying the category's record and the
      same timestamp. */
  lemma {:induction false} BroadcastAllOrder(reg: map<string, set<Conn>>, cats: seq<Category>,
                                             data: map<Category, Json>, now: int, failing: set<Conn>)
    requires RecordsAreDicts(data)
    requires forall c :: c in cats ==> c in data
    ensures InOrder(BroadcastAll(reg, cats, data, now, failing).1, cats, data, now)
  {
    if cats != [] {
      var init := cats[..|cats| - 1];
      var c := cats[|cats| - 1];
      assert cats == init + [c];
      forall x | x in init ensures x in data {
        assert x in cats;
      }
      BroadcastAllOrder(reg, init, data, now, failing);
      var (before, ds) := BroadcastAll(reg, init, data, now, failing);
      assert c in data;
      var d := Delivery(c, Message(data[c], now), Recipients(before, Key(c), failing));
      assert BroadcastAll(reg, cats, data, now, failing).1 == ds + [d];
      InOrderSnoc(ds, init, data, now, d, c);
    }
  }

  /** Broadcasting leaves the registry's categories as they were. */
  lemma {:induction false} BroadcastAllKeys(reg: map<string, set<Conn>>, cats: seq<Category>,
                                            data: map<Category, Json>, now: int, failing: set<Conn>)
    requires RecordsAreDicts(data)
    ensures BroadcastAll(reg, cats, data, now, failing).0.Keys == reg.Keys
  {
    if cats != [] {
      BroadcastAllKeys(reg, cats[..|cats| - 1], data, now, failing);
    }
  }

  /** The keys of the categories in cats. */
  function KeysOf(cats: seq<Category>): set<string>
  {
    set c | c in cats :: Key(c)
  }

  /** r is reg with every key of cats pruned of the failing connections,
      and the i-th delivery reached exactly the survivors of cats[i]. */
  predicate PrunedAll(reg: map<string, set<Conn>>, r: map<string, set<Conn>>, ds: seq<Delivery>,
                      cats: seq<Category>, failing: set<Conn>)
  {
    r.Keys == reg.Keys &&
    (forall k :: k in reg ==> r[k] == if k in KeysOf(cats) then reg[k] - failing else reg[k]) &&
    |ds| == |cats| &&
    forall i :: 0 <= i < |cats| ==> ds[i].recipients == Recipients(reg, Key(cats[i]), failing)
  }

  /** When every category is present, the loop prunes the failing
      connections from each broadcast category and leaves other keys
      alone; each delivery reached the category's subscribers whose send
      succeeded. */
  lemma {:induction false} BroadcastAllEffect(reg: map<string, set<Conn>>, cats: seq<Category>,
                                              data: map<Category, Json>, now: int, failing: set<Conn>)
    requires RecordsAreDicts(data)
    requires forall c :: c in cats ==> c in data
    ensures var (r, ds) := BroadcastAll(reg, cats, data, now, failing);
            PrunedAll(reg, r, ds, cats, failing)
  {
    if cats != [] {
      var init := cats[..|cats| - 1];
      var c := cats[|cats| - 1];
      assert cats == init + [c];
      forall x | x in init ensures x in data {
        assert x in cats;
      }
      BroadcastAllEffect(reg, init, data, now, failing);
      var (before, ds) := BroadcastAll(reg, init, data, now, failing);
      var k := Key(c);
      var d := Delivery(c, Message(data[c], now), Recipients(before, k, failing));
      assert BroadcastAll(reg, cats, data, now, failing) == (Pruned(before, k, failing), ds + [d]);
      assert KeysOf(cats) == KeysOf(init) + {k};
      assert k in reg ==> before[k] - failing == reg[k] - failing;
      forall i | 0 <= i < |cats|
        ensures (ds + [d])[i].recipients == Recipients(reg, Key(cats[i]), failing)
      {
        if i < |init| {
          assert (ds + [d])[i] == ds[i] && cats[i] == init[i];
        }
      }
    }
  }

  /** The rest of the loop body once the data is collected (or the
      collection has raised): update_db, then the broadcasts. */
  function Step(st: PollState, collected: Result<map<Category, Json>, CycleError>,
                now: int, failing: set<Conn>, dumps: Json -> string): PollState
    requires WellCollected(collected)
  {
    match collected
    case Failure(e) => st.(errors := st.errors + [e])
    case Success(data) =>
      match InsertCycle(st.db, now, data, dumps)
      case Failure(e) => st.(errors := st.errors + [StoreFailed(e)])
      case Success(t) =>
        var (reg, ds) := BroadcastAll(st.registry, AllCategories, data, now, failing);
        PollState(Some(t), reg, st.deliveries + ds, st.errors)
  }

  /** One iteration of the `while True` body. */
  function Cycle(st: PollState, socket: Option<Socket>, input: CycleInput,
                 utf8: seq<byte> -> Option<string>, parse: string -> Option<Json>,
                 dumps: Json -> string): PollState
  {
    CollectedRecords(socket, input, utf8, parse);
    Step(st, CollectCycle(socket, input, utf8, parse), input.now, input.failing, dumps)
  }

  /** The cycles run in order. */
  function Run(st: PollState, socket: Option<Socket>, inputs: seq<CycleInput>,
               utf8: seq<byte> -> Option<string>, parse: string -> Option<Json>,
               dumps: Json -> string): PollState
    decreases |inputs|
  {
    if inputs == [] then st
    else Cycle(Run(st, socket, inputs[..|inputs| - 1], utf8, parse, dumps),
               socket, inputs[|inputs| - 1], utf8, parse, dumps)
  }

  /** A cycle either completes, or logs one error and changes nothing
      else: no row, no broadcast, the registry untouched. It completes
      exactly when the data was collected and the row was inserted. */
  lemma StepAllOrNothing(st: PollState, collected: Result<map<Category, Json>, CycleError>,
                         now: int, failing: set<Conn>, dumps: Json -> string)
    requires WellCollected(collected)
    ensures var st' := Step(st, collected, now, failing, dumps);
            (collected.Failure? ==> st' == st.(errors := st.errors + [collected.error])) &&
            (collected.Success? && InsertCycle(st.db, now, collected.value, dumps).Failure? ==>
               st' == st.(errors := st.errors + [StoreFailed(InsertCycle(st.db, now, collected.value, dumps).error)])) &&
            (collected.Success? && InsertCycle(st.db, now, collected.value, dumps).Success? ==>
               st'.errors == st.errors &&
               st'.db == Some(InsertCycle(st.db, now, collected.value, dumps).value))
  {
  }

  /** A completed cycle broadcasts all thirteen categories in enumeration
      order, each message carrying the category's record and that same
      timestamp, and logs nothing. */
  lemma StepBroadcastsAll(st: PollState, collected: Result<map<Category, Json>, CycleError>,
                          now: int, failing: set<Conn>, dumps: Json -> string)
    requires WellCollected(collected) && collected.Success?
    requires InsertCycle(st.db, now, collected.value, dumps).Success?
    ensures var st' := Step(st, collected, now, failing, dumps);
            st'.errors == st.errors &&
            |st'.deliveries| == |st.deliveries| + CategoryCount &&
            st'.deliveries[..|st.deliveries|] == st.deliveries &&
            (forall i :: 0 <= i < CategoryCount ==>
               var d := st'.deliveries[|st.deliveries| + i];
               d.category == AllCategories[i] &&
               d.message == Message(collected.value[AllCategories[i]], now) &&
               d.message.fields["timestamp"] == JInt(now))
  {
    var data := collected.value;
    var ds := BroadcastAll(st.registry, AllCategories, data, now, failing).1;
    BroadcastAllOrder(st.registry, AllCategories, data, now, failing);
    var st' := Step(st, collected, now, failing, dumps);
    assert st'.deliveries == st.deliveries + ds;
    forall i | 0 <= i < CategoryCount
      ensures st'.deliveries[|st.deliveries| + i] == ds[i]
    {
    }
  }

  /** A completed cycle leaves every category's subscribers without the
      connections whose sends failed, and the delivery of the i-th
      category reached exactly its subscribers whose send succeeded. */
  lemma StepPrunesFailing(st: PollState, collected: Result<map<Category, Json>, CycleError>,
                          now: int, failing: set<Conn>, dumps: Json -> string)
    requires WellCollected(collected) && collected.Success?
    requires InsertCycle(st.db, now, collected.value, dumps).Success?
    ensures var st' := Step(st, collected, now, failing, dumps);
            |st.deliveries| <= |st'.deliveries| &&
            st'.deliveries[..|st.deliveries|] == st.deliveries &&
            PrunedAll(st.registry, st'.registry, st'.deliveries[|st.deliveries|..], AllCategories, failing)
    ensures var st' := Step(st, collected, now, failing, dumps);
            forall c :: Key(c) in st.registry ==> Key(c) in st'.registry && st'.registry[Key(c)] == st.registry[Key(c)] - failing
  {
    var data := collected.value;
    BroadcastAllEffect(st.registry, AllCategories, data, now, failing);
    var (r, ds) := BroadcastAll(st.registry, AllCategories, data, now, failing);
    var st' := Step(st, collected, now, failing, dumps);
    assert st'.registry == r && st'.deliveries == st.deliveries + ds;
    assert st'.deliveries[|st.deliveries|..] == ds;
    forall c ensures Key(c) in KeysOf(AllCategories) {
      AllCategoriesComplete(c);
    }
  }

  /** A completed cycle persists the row for its timestamp: the
      timestamp, then each category's serialised record. The stored
      record has no timestamp field, since that is added after update_db. */
  lemma StepPersistsRow(st: PollState, collected: Result<map<Category, Json>, CycleError>,
                        now: int, failing: set<Conn>, dumps: Json -> string)
    requires WellCollected(collected) && collected.Success?
    requires InsertCycle(st.db, now, collected.value, dumps).Success?
    ensures var st' := Step(st, collected, now, failing, dumps);
            st'.db.Some? && SqlInt(now) in st'.db.value.rows &&
            st'.db.value.rows[SqlInt(now)] == RowValues(now, collected.value, dumps)
  {
    RowShape(now, collected.value, dumps, RoverTelemetry);
  }

  /** One cycle's contribution to the log: one error, or thirteen
      broadcasts, appended after what was there. */
  lemma StepAccounting(st: PollState, collected: Result<map<Category, Json>, CycleError>,
                       now: int, failing: set<Conn>, dumps: Json -> string)
    requires WellCollected(collected)
    ensures var r := Step(st, collected, now, failing, dumps);
            r.errors[..|st.errors|] == st.errors && r.deliveries[..|st.deliveries|] == st.deliveries &&
            ((|r.errors| == |st.errors| + 1 && |r.deliveries| == |st.deliveries|) ||
             (|r.errors| == |st.errors| && |r.deliveries| == |st.deliveries| + CategoryCount))
  {
    if collected.Success? && InsertCycle(st.db, now, collected.value, dumps).Success? {
      StepBroadcastsAll(st, collected, now, failing, dumps);
    }
  }

  /** A failed cycle leaves no trace on the next one: the cycle after it
      stores, prunes and broadcasts exactly as it would have without the
      failure, and the logged error stays in the log. */
  lemma FailedStepTransparent(st: PollState, failed: Result<map<Category, Json>, CycleError>,
                              next: Result<map<Category, Json>, CycleError>,
                              now: int, failing: set<Conn>, now': int, failing': set<Conn>,
                              dumps: Json -> string)
    requires WellCollected(failed) && WellCollected(next)
    requires |Step(st, failed, now, failing, dumps).errors| != |st.errors|
    ensures var mid := Step(st, failed, now, failing, dumps);
            var after := Step(mid, next, now', failing', dumps);
            var direct := Step(st, next, now', failing', dumps);
            after.db == direct.db && after.registry == direct.registry &&
            after.deliveries == direct.deliveries &&
            after.errors == mid.errors + direct.errors[|st.errors|..]
  {
    var mid := Step(st, failed, now, failing, dumps);
    assert mid == st.(errors := mid.errors);
  }

  /** A row is written, or a broadcast made, only when all three fetches
      succeeded. */
  lemma PersistOnlyAfterFetches(st: PollState, socket: Option<Socket>, input: CycleInput,
                                utf8: seq<byte> -> Option<string>, parse: string -> Option<Json>,
                                dumps: Json -> string)
    requires var st' := Cycle(st, socket, input, utf8, parse, dumps);
             st'.db != st.db || st'.deliveries != st.deliveries
    ensures FetchAll(socket, input, utf8, parse).Success?
  {
  }

  /** A failing rover fetch ends the cycle before the other two requests:
      what the suit and vehicle exchanges would have done is irrelevant. */
  lemma FetchesShortCircuit(st: PollState, socket: Option<Socket>, input: CycleInput,
                            eva: Exchange, ltv: Exchange,
                            utf8: seq<byte> -> Option<string>, parse: string -> Option<Json>,
                            dumps: Json -> string)
    requires Fetch(socket, RoverCommand, input.rover, utf8, parse).Failure?
    ensures Cycle(st, socket, input, utf8, parse, dumps)
         == Cycle(st, socket, input.(eva := eva, ltv := ltv), utf8, parse, dumps)
         == st.(errors := st.errors + [FetchFailed(Fetch(socket, RoverCommand, input.rover, utf8, parse).error)])
  {
  }

  /** A cycle whose first request cannot be sent logs the connection
      error and does nothing else. */
  lemma SendFailureLogged(st: PollState, socket: Socket, input: CycleInput, why: string,
                          utf8: seq<byte> -> Option<string>, parse: string -> Option<Json>,
                          dumps: Json -> string)
    requires IsU32(input.rover.clock) && input.rover.send == SendFailed(why)
    ensures Cycle(st, Some(socket), input, utf8, parse, dumps)
         == st.(errors := st.errors + [FetchFailed(ConnectionErr(why))])
  {
    assert Fetch(Some(socket), RoverCommand, input.rover, utf8, parse) == Failure(ConnectionErr(why));
  }

  /** A run extended by one input is the shorter run followed by that cycle. */
  lemma RunSnoc(st: PollState, socket: Option<Socket>, inputs: seq<CycleInput>, input: CycleInput,
                utf8: seq<byte> -> Option<string>, parse: string -> Option<Json>, dumps: Json -> string)
    ensures Run(st, socket, inputs + [input], utf8, parse, dumps)
         == Cycle(Run(st, socket, inputs, utf8, parse, dumps), socket, input, utf8, parse, dumps)
  {
    assert (inputs + [input])[..|inputs|] == inputs;
  }

  /** r extends st's log after n cycles, each of which logged one error
      or made thirteen broadcasts. */
  predicate Accounted(st: PollState, r: PollState, n: nat)
  {
    |st.errors| <= |r.errors| <= |st.errors| + n &&
    r.errors[..|st.errors|] == st.errors &&
    |st.deliveries| <= |r.deliveries| &&
    r.deliveries[..|st.deliveries|] == st.deliveries &&
    |r.deliveries| - |st.deliveries| == CategoryCount * (n - (|r.errors| - |st.errors|))
  }

  lemma AccountedStep(st: PollState, mid: PollState, r: PollState, n: nat)
    requires Accounted(st, mid, n) && Accounted(mid, r, 1)
    ensures Accounted(st, r, n + 1)
  {
    assert r.deliveries[..|st.deliveries|] == r.deliveries[..|mid.deliveries|][..|st.deliveries|];
    assert r.errors[..|st.errors|] == r.errors[..|mid.errors|][..|st.errors|];
  }

  /** One cycle's contribution to the log. */
  lemma CycleAccounting(st: PollState, socket: Option<Socket>, input: CycleInput,
                        utf8: seq<byte> -> Option<string>, parse: string -> Option<Json>,
                        dumps: Json -> string)
    ensures Accounted(st, Cycle(st, socket, input, utf8, parse, dumps), 1)
  {
    CollectedRecords(socket, input, utf8, parse);
    StepAccounting(st, CollectCycle(socket, input, utf8, parse), input.now, input.failing, dumps);
  }

  /** Over any run, every cycle either logs exactly one error or makes
      exactly thirteen broadcasts, so the loop never stops early; earlier
      log entries are never rewritten. */
  lemma {:induction false} RunAccounting(st: PollState, socket: Option<Socket>, inputs: seq<CycleInput>,
                                         utf8: seq<byte> -> Option<string>, parse: string -> Option<Json>,
                                         dumps: Json -> string)
    ensures Accounted(st, Run(st, socket, inputs, utf8, parse, dumps), |inputs|)
  {
    if inputs == [] {
      assert st.errors[..|st.errors|] == st.errors;
      assert st.deliveries[..|st.deliveries|] == st.deliveries;
    } else {
      var init := inputs[..|inputs| - 1];
      var last := inputs[|inputs| - 1];
      assert inputs == init + [last];
      RunSnoc(st, socket, init, last, utf8, parse, dumps);
      RunAccounting(st, socket, init, utf8, parse, dumps);
      var mid := Run(st, socket, init, utf8, parse, dumps);
      CycleAccounting(mid, socket, last, utf8, parse, dumps);
      AccountedStep(st, mid, Cycle(mid, socket, last, utf8, parse, dumps), |init|);
    }
  }

  /** The `for category in TelemetryCategory` loop of one cycle. */
  method BroadcastLoop(manager: ConnectionManager, data: map<Category, Json>, now: int, failing: set<Conn>)
    returns (sent: seq<Delivery>)
    requires manager.Valid()
    requires RecordsAreDicts(data)
    modifies manager
    ensures manager.Valid()
    ensures (manager.activeConnections, sent)
         == BroadcastAll(old(manager.activeConnections), AllCategories, data, now, failing)
  {
    ghost var reg0 := manager.activeConnections;
    sent := [];
    for i := 0 to |AllCategories|
      invariant manager.Valid()
      invariant (manager.activeConnections, sent) == BroadcastAll(reg0, AllCategories[..i], data, now, failing)
    {
      var category := AllCategories[i];
      assert AllCategories[..i + 1][..i] == AllCategories[..i];
      if category in data {
        var message := Message(data[category], now);
        var _, d := manager.BroadcastCategory(category, message, failing);
        sent := sent + [d];
      }
    }
    assert AllCategories[..|AllCategories|] == AllCategories;
  }

  /** One pass of the polling loop body against the live objects. */
  method PollCycle(manager: ConnectionManager, updater: TssUpdater, dbm: DatabaseManager,
                   input: CycleInput, utf8: seq<byte> -> Option<string>, parse: string -> Option<Json>,
                   dumps: Json -> string, deliveries: seq<Delivery>, errors: seq<CycleError>)
    returns (deliveries': seq<Delivery>, errors': seq<CycleError>)
    requires manager.Valid()
    modifies manager, dbm
    ensures manager.Valid()
    ensures PollState(dbm.db, manager.activeConnections, deliveries', errors')
         == Cycle(PollState(old(dbm.db), old(manager.activeConnections), deliveries, errors),
                  updater.udpSocket, input, utf8, parse, dumps)
  {
    var collected := CollectCycle(updater.udpSocket, input, utf8, parse);
    CollectedRecords(updater.udpSocket, input, utf8, parse);
    if collected.Failure? {
      deliveries', errors' := deliveries, errors + [collected.error];
      return;
    }
    var data := collected.value;
    var err := dbm.UpdateDb(input.now, data, dumps);
    if err.Some? {
      deliveries', errors' := deliveries, errors + [StoreFailed(err.value)];
      return;
    }
    var sent := BroadcastLoop(manager, data, input.now, input.failing);
    deliveries', errors' := deliveries + sent, errors;
  }

  /** tss_polling: build the updater from the entered address (the default
      when nothing is entered) and a database manager, create the table,
      run the cycles until the task ends, then close the updater. */
  method Poll(manager: ConnectionManager, enteredIp: string, inputs: seq<CycleInput>, closeRaises: bool,
              utf8: seq<byte> -> Option<string>, parse: string -> Option<Json>, dumps: Json -> string)
    returns (updater: TssUpdater, dbm: DatabaseManager,
             deliveries: seq<Delivery>, errors: seq<CycleError>, closeRaised: bool)
    requires manager.Valid()
    modifies manager
    ensures fresh(updater) && fresh(dbm)
    ensures manager.Valid()
    ensures updater.tssIp == (if enteredIp != "" then enteredIp else DefaultIp)
    ensures updater.tssPort == DefaultPort
    ensures PollState(dbm.db, manager.activeConnections, deliveries, errors)
         == Run(PollState(Some(Table(Columns(), map[])), old(manager.activeConnections), [], []),
                Some(Socket(SocketTimeout)), inputs, utf8, parse, dumps)
    ensures updater.udpSocket.None? && updater.socketCloses == 1
    ensures closeRaised == closeRaises
  {
    var ip := if enteredIp != "" then enteredIp else DefaultIp;
    updater := new TssUpdater(ip, DefaultPort);
    dbm := new DatabaseManager();
    var initErr := dbm.InitDb();
    InitTableFresh();
    deliveries, errors := [], [];
    ghost var st0 := PollState(dbm.db, manager.activeConnections, [], []);
    for k := 0 to |inputs|
      invariant manager.Valid()
      invariant updater.tssIp == ip && updater.tssPort == DefaultPort
      invariant updater.udpSocket == Some(Socket(SocketTimeout)) && updater.socketCloses == 0
      invariant PollState(dbm.db, manager.activeConnections, deliveries, errors)
             == Run(st0, Some(Socket(SocketTimeout)), inputs[..k], utf8, parse, dumps)
    {
      assert inputs[..k + 1][..k] == inputs[..k];
      deliveries, errors := PollCycle(manager, updater, dbm, inputs[k], utf8, parse, dumps,
                                      deliveries, errors);
    }
    assert inputs[..|inputs|] == inputs;
    closeRaised := updater.Close(closeRaises);
  }
}
