/** Worker "bravo": reverses the runes of a string, then upper-cases them. */
module Bravo {
  import opened Common

  datatype Request = Request(content: string)
  datatype Response = Response(manipulatedContent: string)

  /** Returned by the entry point when the worker function fails. */
  const ErrManipulate: string := "error while manipulate string"

  /** The per-rune case map behind `strings.ToUpper`, on ASCII letters. */
  function Upper(c: char): (r: char)
    ensures !('a' <= r <= 'z')
    ensures !('a' <= c <= 'z') ==> r == c
  {
    if 'a' <= c <= 'z' then (c as int - 32) as char else c
  }

  /** `strings.ToUpper`: every rune is replaced by its upper-case rune. */
  function UpperAll(s: string): (r: string)
    ensures |r| == |s|
  {
    if s == [] then [] else [Upper(s[0])] + UpperAll(s[1..])
  }

  lemma {:induction false} UpperAllAt(s: string)
    ensures |UpperAll(s)| == |s|
    ensures forall k :: 0 <= k < |s| ==> UpperAll(s)[k] == Upper(s[k])
  {
    if s != [] {
      UpperAllAt(s[1..]);
    }
  }

  /** The runes of `s` in the opposite order. */
  function Reversed(s: string): (r: string)
    ensures |r| == |s|
  {
    if s == [] then [] else Reversed(s[1..]) + [s[0]]
  }

  lemma {:induction false} ReversedAt(s: string, k: int)
    requires 0 <= k < |s|
    ensures Reversed(s)[k] == s[|s| - 1 - k]
  {
    if k < |s| - 1 {
      ReversedAt(s[1..], k);
    }
  }

  /** What bravo makes of its content: `strings.ToUpper` of the reversed
      runes. */
  function ReverseUpper(s: string): (r: string)
    ensures |r| == |s|
  {
    UpperAll(Reversed(s))
  }

  /** The output has as many runes as the input, and its rune at position k
      is the upper case of the rune k places from the end of the input. */
  lemma ReverseUpperAt(s: string)
    ensures |ReverseUpper(s)| == |s|
    ensures forall k :: 0 <= k < |s| ==> ReverseUpper(s)[k] == Upper(s[|s| - 1 - k])
  {
    UpperAllAt(Reversed(s));
    forall k | 0 <= k < |s| ensures Reversed(s)[k] == s[|s| - 1 - k] {
      ReversedAt(s, k);
    }
  }

  /** Reversing twice gives back the original runes. */
  lemma ReversedTwice(s: string)
    ensures Reversed(Reversed(s)) == s
  {
    var r := Reversed(s);
    forall k | 0 <= k < |s| ensures Reversed(r)[k] == s[k] {
      ReversedAt(r, k);
      ReversedAt(s, |s| - 1 - k);
    }
  }

  /** Since the case map is pointwise, reversing then upper-casing is the same
      as upper-casing then reversing. */
  lemma {:induction false} UpperThenReverse(s: string)
    ensures ReverseUpper(s) == Reversed(UpperAll(s))
  {
    if s != [] {
      UpperThenReverse(s[1..]);
      UpperAllAppend(Reversed(s[1..]), [s[0]]);
      assert UpperAll(s)[1..] == UpperAll(s[1..]);
    }
  }

  lemma {:induction false} UpperAllAppend(a: string, b: string)
    ensures UpperAll(a + b) == UpperAll(a) + UpperAll(b)
  {
    if a == [] {
      assert a + b == b;
    } else {
      UpperAllAppend(a[1..], b);
      assert (a + b)[1..] == a[1..] + b;
    }
  }

  /** Upper-casing is idempotent, so bravo applied twice gives the upper-case
      form of the original: the reversal undoes itself, the case is lost. */
  lemma ReverseUpperTwice(s: string)
    ensures ReverseUpper(ReverseUpper(s)) == UpperAll(s)
  {
    var once := ReverseUpper(s);
    ReverseUpperAt(s);
    ReverseUpperAt(once);
    UpperAllAt(s);
    forall k | 0 <= k < |s| ensures ReverseUpper(once)[k] == UpperAll(s)[k] {
      assert once[|s| - 1 - k] == Upper(s[k]);
    }
  }

  /** Bravo's output for a concatenation is the outputs of the parts in
      swapped order. */
  lemma ReverseUpperAppend(a: string, b: string)
    ensures ReverseUpper(a + b) == ReverseUpper(b) + ReverseUpper(a)
  {
    var ab := a + b;
    ReverseUpperAt(ab);
    ReverseUpperAt(a);
    ReverseUpperAt(b);
    forall k | 0 <= k < |ab| ensures ReverseUpper(ab)[k] == (ReverseUpper(b) + ReverseUpper(a))[k] {
      if k < |b| {
        assert ab[|ab| - 1 - k] == b[|b| - 1 - k];
      } else {
        assert ab[|ab| - 1 - k] == a[|a| - 1 - (k - |b|)];
      }
    }
  }

  lemma ReverseUpperEmpty()
    ensures ReverseUpper("") == ""
  {
  }

  lemma ReverseUpperOneRune(c: char)
    ensures ReverseUpper([c]) == [Upper(c)]
  {
    ReverseUpperAt([c]);
  }

  lemma ReverseUpperExample()
    ensures ReverseUpper("abc") == "CBA"
  {
  }

  /** The words of main.go's sample bravo content, each on its own: small
      literals keep the evaluation cheap for the verifier. */
  lemma SampleWordHello() ensures ReverseUpper("Hello ") == " OLLEH" {}
  lemma SampleWordWorld() ensures ReverseUpper("World ") == " DLROW" {}
  lemma SampleWordFrom() ensures ReverseUpper("from ") == " MORF" {}
  lemma SampleWordBravo() ensures ReverseUpper("Bravo ") == " OVARB" {}
  lemma SampleWordTo() ensures ReverseUpper("to") == "OT" {}

  lemma SampleJoins()
    ensures "Hello " + "World " + "from " + "Bravo " + "to" == "Hello World from Bravo to"
    ensures "OT" + (" OVARB" + (" MORF" + (" DLROW" + " OLLEH"))) == "OT OVARB MORF DLROW OLLEH"
  {
  }

  /** main.go's sample bravo content. */
  lemma ReverseUpperSample()
    ensures ReverseUpper("Hello World from Bravo to") == "OT OVARB MORF DLROW OLLEH"
  {
    var a, b, c, d, e := "Hello ", "World ", "from ", "Bravo ", "to";
    SampleJoins();
    SampleWordHello();
    SampleWordWorld();
    SampleWordFrom();
    SampleWordBravo();
    SampleWordTo();
    ReverseUpperAppend(a + b + c + d, e);
    ReverseUpperAppend(a + b + c, d);
    ReverseUpperAppend(a + b, c);
    ReverseUpperAppend(a, b);
  }

  /** `reverseString`: copies the content into a rune array, swaps the two
      ends inwards until the indices meet, then upper-cases the result. */
  method ReverseString(ctx: Context, content: string) returns (r: Result<string>)
    ensures ctx.logger.None? ==> r == Err(ErrNoLogger)
    ensures ctx.logger.Some? ==> r == Ok(ReverseUpper(content))
    ensures r.Ok? ==> |r.value| == |content|
    ensures r.Ok? ==> forall k :: 0 <= k < |content| ==> r.value[k] == Upper(content[|content| - 1 - k])
  {
    if ctx.logger.None? {
      return Err(ErrNoLogger);
    }
    var n := |content|;
    var runes := new char[n](k requires 0 <= k < n => content[k]);
    var i, j := 0, n - 1;
    while i < j
      invariant 0 <= i <= j + 1 <= n
      invariant i + j == n - 1
      invariant forall k :: 0 <= k < i ==> runes[k] == content[n - 1 - k] && runes[n - 1 - k] == content[k]
      invariant forall k :: i <= k <= j ==> runes[k] == content[k]
    {
      runes[i], runes[j] := runes[j], runes[i];
      i, j := i + 1, j - 1;
    }
    forall k | 0 <= k < n ensures runes[k] == content[n - 1 - k] {
      if j < k {
        assert runes[n - 1 - (n - 1 - k)] == content[n - 1 - k];
      }
    }
    UpperAllAt(runes[..]);
    ReverseUpperAt(content);
    assert UpperAll(runes[..]) == ReverseUpper(content);
    r := Ok(UpperAll(runes[..]));
  }

  /** The entry point as a function of its inputs; `BravoLogicFlowEntry`
      computes it. */
  function Transform(ctx: Context, req: Request): (r: Result<Response>)
    ensures r.Err? <==> ctx.logger.None?
    ensures r.Err? ==> r.error == ErrNoLogger
    ensures r.Ok? ==> r.value.manipulatedContent == ReverseUpper(req.content)
    ensures r.Ok? ==> |r.value.manipulatedContent| == |req.content|
  {
    if ctx.logger.None? then Err(ErrNoLogger) else Ok(Response(ReverseUpper(req.content)))
  }

  /** `BravoLogicFlowEntry`: checks the logger, runs the worker function and
      wraps its output. */
  method BravoLogicFlowEntry(ctx: Context, req: Request) returns (r: Result<Response>)
    ensures r.Err? <==> ctx.logger.None?
    ensures r.Err? ==> r.error == ErrNoLogger
    ensures r.Ok? ==> r.value.manipulatedContent == ReverseUpper(req.content)
    ensures r == Transform(ctx, req)
  {
    if ctx.logger.None? {
      return Err(ErrNoLogger);
    }
    var manipulated := ReverseString(ctx, req.content);
    if manipulated.Err? {
      return Err(ErrManipulate);
    }
    r := Ok(Response(manipulated.value));
  }
}
