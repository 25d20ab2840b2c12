/** Worker "charlie": replaces every vowel rune with an asterisk. */
module Charlie {
  import opened Common

  datatype Request = Request(content: string)
  datatype Response = Response(manipulatedContent: string)

  /** Returned by the entry point when the worker function fails. */
  const ErrManipulate: string := "error while manipulate string"

  /** The runes that are masked. */
  const Vowels: string := "AEIOUaeiou"

  /** The rune written in place of a vowel. */
  const Placeholder: char := '*'

  predicate IsVowel(c: char)
  {
    c in Vowels
  }

  /** What charlie writes for one rune of the input. */
  function MaskRune(c: char): char
  {
    if IsVowel(c) then Placeholder else c
  }

  /** What charlie makes of its content, built left to right as the loop
      builds it: each vowel becomes '*', every other rune is kept in place. */
  function Mask(s: string): (r: string)
    ensures |r| == |s|
    ensures forall k :: 0 <= k < |s| ==> r[k] == (if IsVowel(s[k]) then Placeholder else s[k])
  {
    if s == [] then [] else Mask(s[..|s| - 1]) + [MaskRune(s[|s| - 1])]
  }

  /** No vowel survives masking. */
  lemma MaskHasNoVowel(s: string)
    ensures forall k :: 0 <= k < |s| ==> !IsVowel(Mask(s)[k])
  {
  }

  /** Masking the output again leaves it unchanged. */
  lemma MaskIdempotent(s: string)
    ensures Mask(Mask(s)) == Mask(s)
  {
  }

  /** The input comes back unchanged exactly when it holds no vowel. */
  lemma MaskUnchangedIffVowelFree(s: string)
    ensures Mask(s) == s <==> forall k :: 0 <= k < |s| ==> !IsVowel(s[k])
  {
  }

  /** Masking works rune by rune, so it distributes over concatenation. */
  lemma MaskAppend(a: string, b: string)
    ensures Mask(a + b) == Mask(a) + Mask(b)
  {
  }

  lemma MaskEmpty()
    ensures Mask("") == ""
  {
  }

  lemma MaskExample()
    ensures Mask("Hello World") == "H*ll* W*rld"
  {
  }

  /** The two halves of main.go's sample charlie content, each on its own:
      small literals keep the evaluation cheap for the verifier. */
  lemma SampleHalves()
    ensures Mask("Hello World ") == "H*ll* W*rld "
    ensures Mask("from Charlie to") == "fr*m Ch*rl** t*"
  {
  }

  lemma SampleJoins()
    ensures "Hello World " + "from Charlie to" == "Hello World from Charlie to"
    ensures "H*ll* W*rld " + "fr*m Ch*rl** t*" == "H*ll* W*rld fr*m Ch*rl** t*"
  {
  }

  /** main.go's sample charlie content. */
  lemma MaskSample()
    ensures Mask("Hello World from Charlie to") == "H*ll* W*rld fr*m Ch*rl** t*"
  {
    SampleHalves();
    SampleJoins();
    MaskAppend("Hello World ", "from Charlie to");
  }

  /** `replaceVowelsWithAsterisk`: one pass over the runes, appending '*' or
      the rune itself to a builder. */
  method ReplaceVowelsWithAsterisk(ctx: Context, content: string) returns (r: Result<string>)
    ensures ctx.logger.None? ==> r == Err(ErrNoLogger)
    ensures ctx.logger.Some? ==> r == Ok(Mask(content))
  {
    if ctx.logger.None? {
      return Err(ErrNoLogger);
    }
    var result: string := [];
    var k := 0;
    while k < |content|
      invariant 0 <= k <= |content|
      invariant result == Mask(content[..k])
    {
      var c := content[k];
      if c in Vowels {
        result := result + [Placeholder];
      } else {
        result := result + [c];
      }
      assert content[..k + 1][..k] == content[..k];
      k := k + 1;
    }
    assert content[..k] == content;
    r := Ok(result);
  }

  /** The entry point as a function of its inputs; `CharlieLogicFlowEntry`
      computes it. */
  function Transform(ctx: Context, req: Request): (r: Result<Response>)
    ensures r.Err? <==> ctx.logger.None?
    ensures r.Err? ==> r.error == ErrNoLogger
    ensures r.Ok? ==> r.value.manipulatedContent == Mask(req.content)
    ensures r.Ok? ==> |r.value.manipulatedContent| == |req.content|
  {
    if ctx.logger.None? then Err(ErrNoLogger) else Ok(Response(Mask(req.content)))
  }

  /** `CharlieLogicFlowEntry`: checks the logger, runs the worker function and
      wraps its output. */
  method CharlieLogicFlowEntry(ctx: Context, req: Request) returns (r: Result<Response>)
    ensures r.Err? <==> ctx.logger.None?
    ensures r.Err? ==> r.error == ErrNoLogger
    ensures r.Ok? ==> r.value.manipulatedContent == Mask(req.content)
    ensures r == Transform(ctx, req)
  {
    if ctx.logger.None? {
      return Err(ErrNoLogger);
    }
    var manipulated := ReplaceVowelsWithAsterisk(ctx, req.content);
    if manipulated.Err? {
      return Err(ErrManipulate);
    }
    r := Ok(Response(manipulated.value));
  }
}
