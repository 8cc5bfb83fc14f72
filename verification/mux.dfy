/** The command router: a mutable table from command name to handler. */
module RespMux {
  import opened Resp
  import RespErrors

  /** The error the router returns for a command nobody registered. */
  function NotSupported(command: string): (e: Error)
    ensures e.Client? && e.err.ClientErrorCode() == RespErrors.NotSupportedCode
    ensures e.Client? && e.err.Detail() == command
  {
    Client(RespErrors.CommandNotSupported(command))
  }

  class Mux<!S> {
    var handlers: map<string, Handler<S>>

    /** `NewMux`: an empty table. */
    constructor ()
      ensures handlers == map[]
    {
      handlers := map[];
    }

    /** `Add`: registers `handler` for `command`, replacing any earlier one. */
    method Add(command: string, handler: Handler<S>)
      modifies this
      ensures handlers.Keys == old(handlers).Keys + {command}
      ensures handlers[command] == handler
      ensures forall c :: c in old(handlers) && c != command ==> handlers[c] == old(handlers)[c]
    {
      handlers := handlers[command := handler];
    }

    /**
     * `ServeRESP`: exact lookup of the command; an unknown command fails with
     * the not-supported error and leaves the store as it was, a known one is
     * handed the very same request and its outcome is returned unchanged.
     */
    function ServeRESP(store: S, req: Req): (r: Step<S, RType>)
      reads this
      ensures req.Command !in handlers ==> r == Step(Err(NotSupported(req.Command)), store)
      ensures req.Command in handlers ==> r == handlers[req.Command](store, req)
    {
      if req.Command in handlers then handlers[req.Command](store, req)
      else Step(Err(NotSupported(req.Command)), store)
    }
  }

  /** A fresh router rejects every request, whatever its command and arguments. */
  method FreshMuxRejects<S>(store: S, req: Req) returns (r: Step<S, RType>)
    ensures r.store == store
    ensures r.result.Err? && r.result.error == NotSupported(req.Command)
  {
    var m := new Mux<S>();
    r := m.ServeRESP(store, req);
  }

  /** After two registrations under one command the later handler serves it. */
  method LastRegistrationWins<S>(command: string, first: Handler<S>, second: Handler<S>, store: S, args: seq<string>)
    returns (r: Step<S, RType>)
    ensures r == second(store, Req(command, args))
  {
    var m := new Mux<S>();
    m.Add(command, first);
    m.Add(command, second);
    r := m.ServeRESP(store, Req(command, args));
  }

  /**
   * Registering a command leaves every other command's dispatch as it was,
   * including commands that differ from it only in letter case.
   */
  method AddKeepsOtherCommands<S>(m: Mux<S>, command: string, handler: Handler<S>, store: S, req: Req)
    returns (before: Step<S, RType>, after: Step<S, RType>)
    requires req.Command != command
    modifies m
    ensures before == after
  {
    before := m.ServeRESP(store, req);
    m.Add(command, handler);
    after := m.ServeRESP(store, req);
  }

  /** Lookup is case-sensitive: "LPUSH" registered does not serve "lpush". */
  method LookupIsExact<S>(handler: Handler<S>, store: S, args: seq<string>) returns (r: Step<S, RType>)
    ensures r == Step(Err(NotSupported("lpush")), store)
  {
    var m := new Mux<S>();
    m.Add("LPUSH", handler);
    r := m.ServeRESP(store, Req("lpush", args));
  }
}
