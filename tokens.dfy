/** Tokens of SVG list and path data.

    squirtle_core splits an attribute such as `d="M 10 20 l 5 0 z"` or the
    inside of `matrix(...)` into single letters and numbers with a regular
    expression; that tokeniser is not part of this model, which starts from
    the token sequence it yields. */
module Tokens {
  import opened Outcomes

  /** One token: a single letter (a path opcode) or a number. */
  datatype Token = Letter(c: char) | Number(v: real)

  /** `[float(t) for t in ts]`: every token must be a number, a letter makes
      float() raise ValueError. */
  function Floats(ts: seq<Token>): (r: Result<seq<real>>)
    ensures r.Ok? <==> forall i :: 0 <= i < |ts| ==> ts[i].Number?
    ensures r.Ok? ==> |r.value| == |ts|
    ensures r.Ok? ==> forall i :: 0 <= i < |ts| ==> r.value[i] == ts[i].v
    ensures r.Err? ==> r.error == ValueError
  {
    if ts == [] then Ok([])
    else if ts[0].Letter? then Err(ValueError)
    else
      var rest := Floats(ts[1..]);
      if rest.Err? then rest else Ok([ts[0].v] + rest.value)
  }
}
