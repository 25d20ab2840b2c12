/** Orchestrator "alpha": calls bravo and charlie on their parts of the
    request, each only when that part is non-empty, and merges the results
    with the primary content. */
module Alpha {
  import opened Common
  import Bravo
  import Charlie

  datatype Request = Request(alphaContent: string, bravoContent: string, charlieContent: string)
  datatype Response = Response(bravoManipulatedContent: string, charlieManipulatedContent: string)

  /** One invocation of a worker client, with the arguments it received. */
  datatype Call =
    | BravoCall(requestId: string, bravoRequest: Bravo.Request)
    | CharlieCall(requestId: string, charlieRequest: Charlie.Request)

  /** A result together with the client invocations made while computing it,
      in the order they were made. */
  datatype Traced<+T> = Traced(result: Result<T>, calls: seq<Call>)

  /** The injected client functions: request id and worker request in, worker
      response or error out. */
  type BravoClient = (string, Bravo.Request) -> Result<Bravo.Response>
  type CharlieClient = (string, Charlie.Request) -> Result<Charlie.Response>

  const ErrNoRequestId: string := "request id not pass through context"
  const ErrBravoService: string := "error while contacting bravo service"
  const ErrCharlieService: string := "error while contacting charlie service"

  /** The alpha application, holding the two clients it was constructed with. */
  datatype Alpha = Alpha(bravoClient: BravoClient, charlieClient: CharlieClient) {

    /** The flow reaches the bravo client. */
    predicate BravoAttempted(ctx: Context, req: Request)
    {
      ctx.logger.Some? && ctx.requestId.Some? && req.bravoContent != []
    }

    /** The flow reaches the bravo client and the client reports an error. */
    predicate BravoFailed(ctx: Context, req: Request)
    {
      BravoAttempted(ctx, req) && bravoClient(ctx.requestId.value, Bravo.Request(req.bravoContent)).Err?
    }

    /** The charlie block calls the client; the flow gets there only when
        bravo did not fail. */
    predicate CharlieAttempted(ctx: Context, req: Request)
    {
      ctx.logger.Some? && ctx.requestId.Some? && req.charlieContent != []
    }

    /** The charlie block calls the client and the client reports an error. */
    predicate CharlieFailed(ctx: Context, req: Request)
    {
      CharlieAttempted(ctx, req) && charlieClient(ctx.requestId.value, Charlie.Request(req.charlieContent)).Err?
    }

    /** What bravo contributes to the merged output: its manipulated content
        when it was called and answered, "" otherwise. */
    function BravoOutput(ctx: Context, req: Request): string
    {
      if BravoAttempted(ctx, req) && !BravoFailed(ctx, req)
      then bravoClient(ctx.requestId.value, Bravo.Request(req.bravoContent)).value.manipulatedContent
      else ""
    }

    /** What charlie contributes to the merged output. */
    function CharlieOutput(ctx: Context, req: Request): string
    {
      if CharlieAttempted(ctx, req) && !CharlieFailed(ctx, req)
      then charlieClient(ctx.requestId.value, Charlie.Request(req.charlieContent)).value.manipulatedContent
      else ""
    }

    /** `requestToBravoApp`: looks up the logger and the request id, then
        calls the bravo client once with that id and the bravo content. */
    function RequestToBravoApp(ctx: Context, req: Request): (t: Traced<Bravo.Response>)
      ensures ctx.logger.None? ==> t == Traced(Err(ErrNoLogger), [])
      ensures ctx.logger.Some? && ctx.requestId.None? ==> t == Traced(Err(ErrNoRequestId), [])
      ensures ctx.logger.Some? && ctx.requestId.Some? ==>
        t.calls == [BravoCall(ctx.requestId.value, Bravo.Request(req.bravoContent))]
      ensures t.result.Ok? ==>
        ctx.requestId.Some? && bravoClient(ctx.requestId.value, Bravo.Request(req.bravoContent)) == t.result
      ensures ctx.logger.Some? && ctx.requestId.Some? && t.result.Err? ==> t.result.error == ErrBravoService
      ensures ctx.logger.Some? && ctx.requestId.Some? ==>
        var r := bravoClient(ctx.requestId.value, Bravo.Request(req.bravoContent));
        t.result == if r.Err? then Err(ErrBravoService) else r
    {
      if ctx.logger.None? then Traced(Err(ErrNoLogger), [])
      else if ctx.requestId.None? then Traced(Err(ErrNoRequestId), [])
      else
        var requestId := ctx.requestId.value;
        var request := Bravo.Request(req.bravoContent);
        var response := bravoClient(requestId, request);
        Traced(if response.Err? then Err(ErrBravoService) else response, [BravoCall(requestId, request)])
    }

    /** `requestToCharlieApp`: as `RequestToBravoApp`, for the charlie client. */
    function RequestToCharlieApp(ctx: Context, req: Request): (t: Traced<Charlie.Response>)
      ensures ctx.logger.None? ==> t == Traced(Err(ErrNoLogger), [])
      ensures ctx.logger.Some? && ctx.requestId.None? ==> t == Traced(Err(ErrNoRequestId), [])
      ensures ctx.logger.Some? && ctx.requestId.Some? ==>
        t.calls == [CharlieCall(ctx.requestId.value, Charlie.Request(req.charlieContent))]
      ensures t.result.Ok? ==>
        ctx.requestId.Some? && charlieClient(ctx.requestId.value, Charlie.Request(req.charlieContent)) == t.result
      ensures ctx.logger.Some? && ctx.requestId.Some? && t.result.Err? ==> t.result.error == ErrCharlieService
      ensures ctx.logger.Some? && ctx.requestId.Some? ==>
        var r := charlieClient(ctx.requestId.value, Charlie.Request(req.charlieContent));
        t.result == if r.Err? then Err(ErrCharlieService) else r
    {
      if ctx.logger.None? then Traced(Err(ErrNoLogger), [])
      else if ctx.requestId.None? then Traced(Err(ErrNoRequestId), [])
      else
        var requestId := ctx.requestId.value;
        var request := Charlie.Request(req.charlieContent);
        var response := charlieClient(requestId, request);
        Traced(if response.Err? then Err(ErrCharlieService) else response, [CharlieCall(requestId, request)])
    }

    /** The bravo block of `businessLogicFlow`: `bravoStr` and the calls made
        to compute it. With empty content nothing is called and `bravoStr`
        keeps its zero value "". */
    function BravoStage(ctx: Context, req: Request): (t: Traced<string>)
      ensures t.calls == if BravoAttempted(ctx, req)
        then [BravoCall(ctx.requestId.value, Bravo.Request(req.bravoContent))] else []
      ensures t.result.Err? <==>
        req.bravoContent != [] && (ctx.logger.None? || ctx.requestId.None? || BravoFailed(ctx, req))
      ensures t.result.Ok? ==> t.result.value == BravoOutput(ctx, req)
    {
      if |req.bravoContent| > 0 then
        var br := RequestToBravoApp(ctx, req);
        Traced(if br.result.Err? then Err(br.result.error) else Ok(br.result.value.manipulatedContent), br.calls)
      else Traced(Ok(""), [])
    }

    /** The charlie block of `businessLogicFlow`, as `BravoStage`. */
    function CharlieStage(ctx: Context, req: Request): (t: Traced<string>)
      ensures t.calls == if CharlieAttempted(ctx, req)
        then [CharlieCall(ctx.requestId.value, Charlie.Request(req.charlieContent))] else []
      ensures t.result.Err? <==>
        req.charlieContent != [] && (ctx.logger.None? || ctx.requestId.None? || CharlieFailed(ctx, req))
      ensures t.result.Ok? ==> t.result.value == CharlieOutput(ctx, req)
    {
      if |req.charlieContent| > 0 then
        var cr := RequestToCharlieApp(ctx, req);
        Traced(if cr.result.Err? then Err(cr.result.error) else Ok(cr.result.value.manipulatedContent), cr.calls)
      else Traced(Ok(""), [])
    }

    /** `businessLogicFlow`: bravo first, charlie second, each only for
        non-empty content; the first error ends the flow with no response. */
    function BusinessLogicFlow(ctx: Context, req: Request): (t: Traced<Response>)
      // a missing logger stops the flow before any client is called
      ensures ctx.logger.None? ==> t == Traced(Err(ErrNoLogger), [])
      // each client at most once, bravo before charlie
      ensures |t.calls| <= 2
      ensures forall i, j :: 0 <= i < j < |t.calls| ==> t.calls[i].BravoCall? && t.calls[j].CharlieCall?
      // each client receives the context's request id and its own content
      ensures forall i :: 0 <= i < |t.calls| ==> Some(t.calls[i].requestId) == ctx.requestId
      ensures forall i :: 0 <= i < |t.calls| && t.calls[i].BravoCall? ==>
        t.calls[i].bravoRequest == Bravo.Request(req.bravoContent)
      ensures forall i :: 0 <= i < |t.calls| && t.calls[i].CharlieCall? ==>
        t.calls[i].charlieRequest == Charlie.Request(req.charlieContent)
      // which clients are called: bravo's call is the first, charlie's the last
      ensures BravoAttempted(ctx, req) <==> |t.calls| > 0 && t.calls[0].BravoCall?
      ensures CharlieAttempted(ctx, req) && !BravoFailed(ctx, req) <==>
        |t.calls| > 0 && t.calls[|t.calls| - 1].CharlieCall?
      // a missing request id is an error only when a client would be called
      ensures ctx.logger.Some? && ctx.requestId.None? ==>
        t.calls == [] && (t.result.Err? <==> req.bravoContent != [] || req.charlieContent != [])
      // a bravo failure ends the flow
      ensures BravoFailed(ctx, req) ==> t.result == Err(ErrBravoService)
      // the error message names the stage that failed
      ensures ctx.logger.Some? && t.result.Err? ==>
        t.result.error == (if req.bravoContent != [] && (ctx.requestId.None? || BravoFailed(ctx, req))
                           then ErrBravoService else ErrCharlieService)
      // success, and the shape of the merged output
      ensures t.result.Ok? <==>
        ctx.logger.Some? &&
        (req.bravoContent != [] || req.charlieContent != [] ==> ctx.requestId.Some?) &&
        !BravoFailed(ctx, req) && !CharlieFailed(ctx, req)
      ensures t.result.Ok? ==>
        t.result.value == Response(req.alphaContent + " " + BravoOutput(ctx, req), req.alphaContent + " " + CharlieOutput(ctx, req))
    {
      if ctx.logger.None? then Traced(Err(ErrNoLogger), [])
      else
        var bravo := BravoStage(ctx, req);
        if bravo.result.Err? then Traced(Err(ErrBravoService), bravo.calls)
        else
          var charlie := CharlieStage(ctx, req);
          if charlie.result.Err? then Traced(Err(ErrCharlieService), bravo.calls + charlie.calls)
          else
            Traced(Ok(Response(req.alphaContent + " " + bravo.result.value, req.alphaContent + " " + charlie.result.value)),
                   bravo.calls + charlie.calls)
    }

    /** `AlphaLogicFlowEntry`: checks the logger, runs the flow, and turns
        every error of the flow into one generic message. */
    function AlphaLogicFlowEntry(ctx: Context, req: Request): (t: Traced<Response>)
      ensures ctx.logger.None? ==> t == Traced(Err(ErrNoLogger), [])
      ensures ctx.logger.Some? && t.result.Err? ==> t.result.error == ErrCharlieService
      ensures t.calls == BusinessLogicFlow(ctx, req).calls
      ensures t.result.Ok? <==>
        ctx.logger.Some? &&
        (req.bravoContent != [] || req.charlieContent != [] ==> ctx.requestId.Some?) &&
        !BravoFailed(ctx, req) && !CharlieFailed(ctx, req)
      ensures t.result.Ok? ==>
        t.result.value == Response(req.alphaContent + " " + BravoOutput(ctx, req), req.alphaContent + " " + CharlieOutput(ctx, req))
    {
      if ctx.logger.None? then Traced(Err(ErrNoLogger), [])
      else
        var response := BusinessLogicFlow(ctx, req);
        if response.result.Err? then Traced(Err(ErrCharlieService), response.calls) else response
    }

    /** When both worker contents are empty no client is called, the request
        id is not needed, and both merged fields are the primary content
        followed by a single space. */
    lemma SkippedWorkersLeaveTrailingSpace(ctx: Context, req: Request)
      requires ctx.logger.Some? && req.bravoContent == [] && req.charlieContent == []
      ensures AlphaLogicFlowEntry(ctx, req) ==
        Traced(Ok(Response(req.alphaContent + " ", req.alphaContent + " ")), [])
    {
      assert req.alphaContent + " " + "" == req.alphaContent + " ";
    }

    /** The bravo client is called exactly when the flow reaches it, and the
        charlie client exactly when the flow reaches it and bravo did not fail. */
    lemma ClientsCalled(ctx: Context, req: Request)
      ensures var calls := AlphaLogicFlowEntry(ctx, req).calls;
        (exists i :: 0 <= i < |calls| && calls[i].BravoCall?) <==> BravoAttempted(ctx, req)
      ensures var calls := AlphaLogicFlowEntry(ctx, req).calls;
        (exists i :: 0 <= i < |calls| && calls[i].CharlieCall?) <==>
        CharlieAttempted(ctx, req) && !BravoFailed(ctx, req)
    {
    }

    /** A bravo failure: charlie is never called and there is no partial
        response. */
    lemma BravoFailureStopsCharlie(ctx: Context, req: Request)
      requires BravoFailed(ctx, req)
      ensures AlphaLogicFlowEntry(ctx, req) ==
        Traced(Err(ErrCharlieService), [BravoCall(ctx.requestId.value, Bravo.Request(req.bravoContent))])
    {
    }
  }
}
