/**
 * The list command handlers. Each checks the argument count, splits the
 * arguments, makes one call through the list engine interface and turns the
 * engine's answer into a reply.
 *
 * The engine's implementation is not part of this model. It is the record of
 * its five operations, each a function of the store's current state `S` and
 * the call's arguments that gives the result and the store's next state; the
 * handlers' properties are stated relative to what the engine returns.
 */
module ListHandlers {
  import opened Resp
  import opened HandlerArgs
  import RespMux

  /** `domain.ListEngine`: the five list operations, over an abstract store. */
  datatype ListEngine<!S> = ListEngine(
    LLeftPush: (S, string, seq<string>) -> Step<S, int>,
    LRightPush: (S, string, seq<string>) -> Step<S, int>,
    LLeftPop: (S, string) -> Step<S, string>,
    LRightPop: (S, string) -> Step<S, string>,
    LRange: (S, string, int, int) -> Step<S, seq<string>>)

  /**
   * The reply for a popped value: the engine's error as it is, the empty
   * string (the engine's "nothing there") as Nil, any other string as itself.
   */
  function PopReply(popped: Result<string>): (r: Result<RType>)
    ensures r.Err? <==> popped.Err?
    ensures r.Err? ==> r.error == popped.error
    ensures r == Ok(RNil) <==> popped == Ok("")
    ensures r.Ok? && r.value.RBulkString? <==> popped.Ok? && popped.value != ""
    ensures r.Ok? && r.value.RBulkString? ==> r.value.str == popped.value
    ensures r != Ok(RBulkString(""))
  {
    match popped
    case Err(e) => Err(e)
    case Ok(s) => if s == "" then Ok(RNil) else Ok(RBulkString(s))
  }

  /** The key and the values of a push request: the first argument and all the rest. */
  function KeyAndValues(args: seq<string>): (kv: (string, seq<string>))
    requires |args| >= 1
    ensures [kv.0] + kv.1 == args
    ensures |kv.1| == |args| - 1
  {
    (args[0], args[1..])
  }

  /** `listApi`: the handlers share the engine (the logger is not modelled). */
  datatype ListApi<!S> = ListApi(engine: ListEngine<S>) {

    /** The `LeftPop` handler. */
    function ServeLeftPop(store: S, req: Req): (r: Step<S, RType>)
      ensures |req.Args| != 1 ==> r == Step(Err(ArgCount(req.Command, Exactly, 1, |req.Args|)), store)
      ensures |req.Args| == 1 ==>
        var call := engine.LLeftPop(store, req.Args[0]);
        r.store == call.store
        && (call.result.Err? ==> r.result == Err(call.result.error))
        && (call.result == Ok("") ==> r.result == Ok(RNil))
        && (call.result.Ok? && call.result.value != "" ==> r.result == Ok(RBulkString(call.result.value)))
      ensures r.result != Ok(RBulkString(""))
    {
      match ValidateArgsExact(req, 1)
      case Some(e) => Step(Err(e), store)
      case None =>
        var key := req.Args[0];
        var call := engine.LLeftPop(store, key);
        Step(PopReply(call.result), call.store)
    }

    /** The `RightPop` handler. */
    function ServeRightPop(store: S, req: Req): (r: Step<S, RType>)
      ensures |req.Args| != 1 ==> r == Step(Err(ArgCount(req.Command, Exactly, 1, |req.Args|)), store)
      ensures |req.Args| == 1 ==>
        var call := engine.LRightPop(store, req.Args[0]);
        r.store == call.store
        && (call.result.Err? ==> r.result == Err(call.result.error))
        && (call.result == Ok("") ==> r.result == Ok(RNil))
        && (call.result.Ok? && call.result.value != "" ==> r.result == Ok(RBulkString(call.result.value)))
      ensures r.result != Ok(RBulkString(""))
    {
      match ValidateArgsExact(req, 1)
      case Some(e) => Step(Err(e), store)
      case None =>
        var key := req.Args[0];
        var call := engine.LRightPop(store, key);
        Step(PopReply(call.result), call.store)
    }

    /** The `LeftPush` handler. */
    function ServeLeftPush(store: S, req: Req): (r: Step<S, RType>)
      ensures |req.Args| < 2 ==> r == Step(Err(ArgCount(req.Command, AtLeast, 2, |req.Args|)), store)
      ensures |req.Args| >= 2 ==>
        var call := engine.LLeftPush(store, req.Args[0], req.Args[1..]);
        r.store == call.store
        && (call.result.Err? ==> r.result == Err(call.result.error))
        && (call.result.Ok? ==> r.result == Ok(RInt(call.result.value)))
    {
      match ValidateArgsMin(req, 2)
      case Some(e) => Step(Err(e), store)
      case None =>
        var (key, values) := KeyAndValues(req.Args);
        var call := engine.LLeftPush(store, key, values);
        match call.result
        case Err(e) => Step(Err(e), call.store)
        case Ok(listSize) => Step(Ok(RInt(listSize)), call.store)
    }

    /** The `RightPush` handler. */
    function ServeRightPush(store: S, req: Req): (r: Step<S, RType>)
      ensures |req.Args| < 2 ==> r == Step(Err(ArgCount(req.Command, AtLeast, 2, |req.Args|)), store)
      ensures |req.Args| >= 2 ==>
        var call := engine.LRightPush(store, req.Args[0], req.Args[1..]);
        r.store == call.store
        && (call.result.Err? ==> r.result == Err(call.result.error))
        && (call.result.Ok? ==> r.result == Ok(RInt(call.result.value)))
    {
      match ValidateArgsMin(req, 2)
      case Some(e) => Step(Err(e), store)
      case None =>
        var (key, values) := KeyAndValues(req.Args);
        var call := engine.LRightPush(store, key, values);
        match call.result
        case Err(e) => Step(Err(e), call.store)
        case Ok(listSize) => Step(Ok(RInt(listSize)), call.store)
    }

    /**
     * The `Range` handler, as written: when either bound fails to parse, the
     * error records the first bound's literal.
     */
    function ServeRange(store: S, req: Req): (r: Step<S, RType>)
      ensures |req.Args| != 3 ==> r == Step(Err(ArgCount(req.Command, Exactly, 3, |req.Args|)), store)
      ensures |req.Args| == 3 && (ParseInt(req.Args[1]).None? || ParseInt(req.Args[2]).None?) ==>
        r == Step(Err(InvalidInteger(req.Command, req.Args[1])), store)
      ensures |req.Args| == 3 && ParseInt(req.Args[1]).Some? && ParseInt(req.Args[2]).Some? ==>
        var call := engine.LRange(store, req.Args[0], ParseInt(req.Args[1]).value, ParseInt(req.Args[2]).value);
        r.store == call.store
        && (call.result.Err? ==> r.result == Err(call.result.error))
        && (call.result.Ok? ==> r.result == Ok(RArray(call.result.value)))
    {
      match ValidateArgsExact(req, 3)
      case Some(e) => Step(Err(e), store)
      case None =>
        var key := req.Args[0];
        match ParseInt(req.Args[1])
        case None => Step(Err(ErrInvalidInteger(req.Command, req.Args[1])), store)
        case Some(min) =>
          match ParseInt(req.Args[2])
          case None => Step(Err(ErrInvalidInteger(req.Command, req.Args[1])), store)
          case Some(max) =>
            var call := engine.LRange(store, key, min, max);
            match call.result
            case Err(e) => Step(Err(e), call.store)
            case Ok(values) => Step(Ok(RArray(values)), call.store)
    }

    /**
     * `Range` as evidently intended: the invalid-integer error records the
     * literal that failed to parse. Otherwise it is `ServeRange`.
     */
    function ServeRangeIntended(store: S, req: Req): (r: Step<S, RType>)
      ensures |req.Args| != 3 ==> r == ServeRange(store, req)
      ensures |req.Args| == 3 && ParseInt(req.Args[1]).Some? && ParseInt(req.Args[2]).Some? ==>
        r == ServeRange(store, req)
      ensures |req.Args| == 3 && (ParseInt(req.Args[1]).None? || ParseInt(req.Args[2]).None?) ==>
        r.store == store && r.result.Err? && r.result.error.InvalidInteger?
        && r.result.error.command == req.Command
        && (r.result.error.literal == req.Args[1] || r.result.error.literal == req.Args[2])
        && ParseInt(r.result.error.literal).None?
    {
      if |req.Args| == 3 && ParseInt(req.Args[1]).Some? && ParseInt(req.Args[2]).None? then
        Step(Err(ErrInvalidInteger(req.Command, req.Args[2])), store)
      else ServeRange(store, req)
    }

    /** The handler factories: each wraps its handler as a value the router can hold. */
    function LeftPop(): Handler<S> {
      (store, req) => ServeLeftPop(store, req)
    }

    function RightPop(): Handler<S> {
      (store, req) => ServeRightPop(store, req)
    }

    function LeftPush(): Handler<S> {
      (store, req) => ServeLeftPush(store, req)
    }

    function RightPush(): Handler<S> {
      (store, req) => ServeRightPush(store, req)
    }

    function Range(): Handler<S> {
      (store, req) => ServeRange(store, req)
    }
  }

  /**
   * The as-written `Range` names the wrong literal: with a valid lower bound
   * and an invalid upper bound, the error records the valid one.
   */
  lemma RangeNamesFirstBound<S>(api: ListApi<S>, store: S)
    ensures var r := api.ServeRange(store, Req("LRANGE", ["k", "0", "x"]));
      r.result == Err(InvalidInteger("LRANGE", "0")) && ParseInt("0").Some?
  {
  }

  /**
   * An argument-count failure never reaches the engine: two different engines
   * give the same answer and the store is left as it was.
   */
  lemma ArityFailuresIgnoreEngine<S>(a: ListApi<S>, b: ListApi<S>, store: S, req: Req)
    ensures |req.Args| != 1 ==>
      a.ServeLeftPop(store, req) == b.ServeLeftPop(store, req) && a.ServeLeftPop(store, req).store == store
      && a.ServeRightPop(store, req) == b.ServeRightPop(store, req) && a.ServeRightPop(store, req).store == store
    ensures |req.Args| < 2 ==>
      a.ServeLeftPush(store, req) == b.ServeLeftPush(store, req) && a.ServeLeftPush(store, req).store == store
      && a.ServeRightPush(store, req) == b.ServeRightPush(store, req) && a.ServeRightPush(store, req).store == store
    ensures |req.Args| != 3 ==>
      a.ServeRange(store, req) == b.ServeRange(store, req) && a.ServeRange(store, req).store == store
  {
  }

  /** A range request with a literal that is not a number fails naming it, store untouched. */
  lemma RangeRejectsNonNumeral<S>(api: ListApi<S>, store: S)
    ensures api.ServeRange(store, Req("LRANGE", ["k", "x", "1"])) == Step(Err(InvalidInteger("LRANGE", "x")), store)
  {
  }

  /**
   * A bound written in canonical base-10 form reaches the engine as the very
   * integer it denotes, for every pair of bounds.
   */
  lemma RangePassesBounds<S>(api: ListApi<S>, store: S, command: string, key: string, min: int, max: int)
    ensures var r := api.ServeRange(store, Req(command, [key, FormatInt(min), FormatInt(max)]));
      var call := api.engine.LRange(store, key, min, max);
      r.store == call.store
      && (call.result.Ok? ==> r.result == Ok(RArray(call.result.value)))
      && (call.result.Err? ==> r.result == Err(call.result.error))
  {
    ParseFormatRoundTrip(min);
    ParseFormatRoundTrip(max);
  }

  /**
   * The router hands a request to its handler untouched, so the handler's own
   * argument-count rule decides: a push carrying only a key is rejected with
   * the push handler's error and the store is left as it was.
   */
  method PushWithoutValuesThroughRouter<S>(api: ListApi<S>, store: S, key: string) returns (r: Step<S, RType>)
    ensures r == Step(Err(ArgCount("LPUSH", AtLeast, 2, 1)), store)
  {
    var m := new RespMux.Mux<S>();
    m.Add("LPUSH", api.LeftPush());
    r := m.ServeRESP(store, Req("LPUSH", [key]));
  }
}
