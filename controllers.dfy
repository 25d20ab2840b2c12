/** The process wiring: each worker is reached through a controller that
    builds a fresh context holding a logger and the request id it was given,
    and alpha is constructed with those controllers as its clients. */
module Controllers {
  import opened Common
  import Alpha
  import Bravo
  import Charlie

  /** `ControllerBravoApplication`. */
  function BravoController(requestId: string, request: Bravo.Request): (r: Result<Bravo.Response>)
    ensures r == Ok(Bravo.Response(Bravo.ReverseUpper(request.content)))
  {
    Bravo.Transform(Context(Some(Logger("bravo")), Some(requestId)), request)
  }

  /** `ControllerCharlieApplication`. */
  function CharlieController(requestId: string, request: Charlie.Request): (r: Result<Charlie.Response>)
    ensures r == Ok(Charlie.Response(Charlie.Mask(request.content)))
  {
    Charlie.Transform(Context(Some(Logger("charlie")), Some(requestId)), request)
  }

  /** Alpha constructed with the real workers as its clients. */
  function Service(): (s: Alpha.Alpha)
    ensures forall id, rq :: s.bravoClient(id, rq) == Ok(Bravo.Response(Bravo.ReverseUpper(rq.content)))
    ensures forall id, rq :: s.charlieClient(id, rq) == Ok(Charlie.Response(Charlie.Mask(rq.content)))
  {
    Alpha.Alpha(BravoController, CharlieController)
  }

  /** With a logger and a request id in the context, alpha wired to the real
      workers never fails, and its two fields are the primary content, a
      space, and the reversed-upper-cased bravo content or the masked charlie
      content (both "" for empty content). */
  lemma ComposedWithWorkers(ctx: Context, req: Alpha.Request)
    requires ctx.logger.Some? && ctx.requestId.Some?
    ensures Service().AlphaLogicFlowEntry(ctx, req).result == Ok(Alpha.Response(
      req.alphaContent + " " + Bravo.ReverseUpper(req.bravoContent),
      req.alphaContent + " " + Charlie.Mask(req.charlieContent)))
  {
  }

  /** main.go's `ControllerAlphaApplication`: its fixed request, with a
      logger and the request id "1239893491327" in the context. */
  lemma SampleRequest()
    ensures Service().AlphaLogicFlowEntry(
      Context(Some(Logger("alpha")), Some("1239893491327")),
      Alpha.Request("John Doe", "Hello World from Bravo to", "Hello World from Charlie to")).result
      == Ok(Alpha.Response(
        "John Doe" + " " + "OT OVARB MORF DLROW OLLEH",
        "John Doe" + " " + "H*ll* W*rld fr*m Ch*rl** t*"))
  {
    ComposedWithWorkers(
      Context(Some(Logger("alpha")), Some("1239893491327")),
      Alpha.Request("John Doe", "Hello World from Bravo to", "Hello World from Charlie to"));
    Bravo.ReverseUpperSample();
    Charlie.MaskSample();
  }
}
