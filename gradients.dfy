/** squirtle_core's gradients: the `GradientContainer` dictionary that tells
    waiting clients when a gradient is added, and the colour interpolation
    between gradient stops of `Gradient.interp`. */
module SvgGradients {
  import opened Outcomes
  import SvgMatrix

  // ---------------------------------------------------------------------
  // GradientContainer

  /** A dictionary from gradient ids to gradients (`V`) that remembers, per
      id, the callbacks (`C`) waiting for that id. A callback runs outside
      this model; `calls` is the log of the calls made, each a callback with
      the value it was given. */
  class GradientContainer<V, C> {
    var items: map<string, V>
    var callbackDict: map<string, seq<C>>
    var calls: seq<(C, V)>

    /** `GradientContainer(*args, **kwargs)`: the dictionary's initial
        contents, and no callback yet. */
    constructor (initial: map<string, V>)
      ensures items == initial && callbackDict == map[] && calls == []
    {
      items := initial;
      callbackDict := map[];
      calls := [];
    }

    /** The callbacks waiting for `id`, in registration order. */
    function Waiting(id: string): seq<C>
      reads this
    {
      if id in callbackDict then callbackDict[id] else []
    }

    /** `call_me_on_add(callback, grad_id)`: the callback joins the end of the
        list for `grad_id`, which is created on first use. */
    method CallMeOnAdd(callback: C, gradId: string)
      modifies this
      ensures callbackDict == old(callbackDict)[gradId := old(Waiting(gradId)) + [callback]]
      ensures items == old(items) && calls == old(calls)
    {
      if gradId !in callbackDict {
        callbackDict := callbackDict[gradId := [callback]];
        assert [] + [callback] == [callback];
        return;
      }
      callbackDict := callbackDict[gradId := callbackDict[gradId] + [callback]];
    }

    /** `update(...)` always raises NotImplementedError and changes
        nothing. */
    method Update() returns (r: Result<()>)
      ensures r == Err(NotImplementedError)
    {
      return Err(NotImplementedError);
    }

    /** `container[key] = val`: the value is stored first, then every callback
        waiting for `key` is called with it, in registration order. The
        callbacks stay registered and no other key's callbacks run. */
    method SetItem(key: string, val: V)
      modifies this
      ensures items == old(items)[key := val]
      ensures callbackDict == old(callbackDict)
      ensures calls == old(calls) + Notifications(old(Waiting(key)), val)
    {
      items := items[key := val];
      var callbacks := Waiting(key);
      var i := 0;
      while i < |callbacks|
        invariant 0 <= i <= |callbacks|
        invariant items == old(items)[key := val] && callbackDict == old(callbackDict)
        invariant calls == old(calls) + Notifications(callbacks[..i], val)
      {
        calls := calls + [(callbacks[i], val)];
        i := i + 1;
        assert callbacks[..i] == callbacks[..i - 1] + [callbacks[i - 1]];
      }
      assert callbacks[..i] == callbacks;
    }
  }

  /** The calls made when `val` arrives for callbacks `cbs`. */
  function Notifications<V, C>(cbs: seq<C>, val: V): (r: seq<(C, V)>)
    ensures |r| == |cbs|
    ensures forall i :: 0 <= i < |cbs| ==> r[i] == (cbs[i], val)
  {
    if cbs == [] then [] else Notifications(cbs[..|cbs| - 1], val) + [(cbs[|cbs| - 1], val)]
  }

  /** Registering `cbs` for `id` in order and then setting `id` calls the
      callbacks already waiting first, then `cbs` in registration order, each
      with the new value; all of them stay registered. */
  method RegistrationOrder<V, C>(g: GradientContainer<V, C>, cbs: seq<C>, id: string, val: V)
    modifies g
    ensures g.calls == old(g.calls) + Notifications(old(g.Waiting(id)) + cbs, val)
    ensures g.Waiting(id) == old(g.Waiting(id)) + cbs
    ensures g.callbackDict - {id} == old(g.callbackDict) - {id}
    ensures g.items == old(g.items)[id := val]
  {
    ghost var before := g.Waiting(id);
    var i := 0;
    while i < |cbs|
      invariant 0 <= i <= |cbs|
      invariant g.callbackDict - {id} == old(g.callbackDict) - {id}
      invariant g.Waiting(id) == before + cbs[..i]
      invariant g.calls == old(g.calls) && g.items == old(g.items)
    {
      g.CallMeOnAdd(cbs[i], id);
      assert cbs[..i + 1] == cbs[..i] + [cbs[i]];
      i := i + 1;
    }
    assert cbs[..i] == cbs;
    g.SetItem(id, val);
  }

  // ---------------------------------------------------------------------
  // Gradient.interp

  /** One gradient stop: its offset and its colour list. */
  datatype Stop = Stop(offset: real, color: seq<int>)

  /** The stops sorted by offset with no offset twice, as `Gradient.__init__`
      leaves them (a dictionary keyed by offset, then sorted). */
  predicate Increasing(stops: seq<Stop>)
  {
    forall i, j :: 0 <= i < j < |stops| ==> stops[i].offset < stops[j].offset
  }

  /** Python's `int()` of a float: truncation toward zero. */
  function Trunc(x: real): (n: int)
    ensures x >= 0.0 ==> n as real <= x < n as real + 1.0
    ensures x < 0.0 ==> n as real - 1.0 < x <= n as real
  {
    if x >= 0.0 then x.Floor else -((-x).Floor)
  }

  /** `[int(x[0] * (1 - alpha) + x[1] * alpha) for x in zip(lo, hi)]`. */
  function Blend(lo: seq<int>, hi: seq<int>, alpha: real): (r: seq<int>)
    ensures |r| == if |lo| <= |hi| then |lo| else |hi|
  {
    var n := if |lo| <= |hi| then |lo| else |hi|;
    seq(n, i requires 0 <= i < n => Mix(lo[i], hi[i], alpha))
  }

  /** One channel of a blend. */
  function Mix(x: int, y: int, alpha: real): int
  {
    Trunc(Lerp(x as real, y as real, alpha))
  }

  /** `x * (1 - alpha) + y * alpha`. */
  function Lerp(x: real, y: real, alpha: real): real
  {
    x * (1.0 - alpha) + y * alpha
  }

  /** The loop of `Gradient.interp` from the pair (stops[n], stops[n + 1]):
      the first upper stop at or above `t` decides; past the last stop the
      last colour is used. */
  function InterpFrom(stops: seq<Stop>, t: real, n: nat): seq<int>
    requires Increasing(stops) && n < |stops|
    decreases |stops| - n
  {
    if n + 1 == |stops| then stops[n].color
    else if t <= stops[n + 1].offset then
      var u, v := stops[n].offset, stops[n + 1].offset;
      Blend(stops[n].color, stops[n + 1].color, (t - u) / (v - u))
    else InterpFrom(stops, t, n + 1)
  }

  /** `Gradient.interp(pt)` for the gradient value `t` of the point: magenta
      without stops, the first colour below the first stop, otherwise the
      blend of the two stops around `t`. */
  function Interp(stops: seq<Stop>, t: real): seq<int>
    requires Increasing(stops)
  {
    if stops == [] then [255, 0, 255, 255]
    else if t < stops[0].offset then stops[0].color
    else InterpFrom(stops, t, 0)
  }

  /** The search skips every pair whose upper stop lies below `t`. */
  lemma {:induction false} InterpSkips(stops: seq<Stop>, t: real, n: nat, k: nat)
    requires Increasing(stops) && n <= k < |stops|
    requires forall m :: n < m <= k ==> stops[m].offset < t
    ensures InterpFrom(stops, t, n) == InterpFrom(stops, t, k)
    decreases k - n
  {
    if n < k {
      InterpSkips(stops, t, n + 1, k);
    }
  }

  /** Between two neighbouring stops the colour is the blend of the two with
      the weight `alpha` of `t`'s position between their offsets. */
  lemma InterpSegment(stops: seq<Stop>, t: real, k: nat)
    requires Increasing(stops) && k + 1 < |stops|
    requires stops[k].offset <= t <= stops[k + 1].offset
    requires k > 0 ==> stops[k].offset < t
    ensures var u, v := stops[k].offset, stops[k + 1].offset;
            Interp(stops, t) == Blend(stops[k].color, stops[k + 1].color, (t - u) / (v - u))
  {
    InterpSkips(stops, t, 0, k);
  }

  /** Below the first stop the first colour is used, above the last the
      last colour, and without stops the colour is magenta. */
  lemma InterpOutside(stops: seq<Stop>, t: real)
    requires Increasing(stops)
    ensures stops == [] ==> Interp(stops, t) == [255, 0, 255, 255]
    ensures stops != [] && t < stops[0].offset ==> Interp(stops, t) == stops[0].color
    ensures stops != [] && t > stops[|stops| - 1].offset ==> Interp(stops, t) == stops[|stops| - 1].color
  {
    if stops != [] && t > stops[|stops| - 1].offset {
      InterpSkips(stops, t, 0, |stops| - 1);
    }
  }

  /** Blending a colour with itself in every proportion, or with weight 0
      or 1, gives back a colour of the same length unchanged. */
  lemma BlendEnds(lo: seq<int>, hi: seq<int>)
    requires |lo| == |hi|
    ensures Blend(lo, hi, 0.0) == lo && Blend(lo, hi, 1.0) == hi
  {
    forall i | 0 <= i < |lo|
      ensures Blend(lo, hi, 0.0)[i] == lo[i] && Blend(lo, hi, 1.0)[i] == hi[i]
    {
      MixEnds(lo[i], hi[i]);
    }
  }

  lemma MixEnds(x: int, y: int)
    ensures Mix(x, y, 0.0) == x && Mix(x, y, 1.0) == y
  {
    assert Lerp(x as real, y as real, 0.0) == x as real;
    assert Lerp(x as real, y as real, 1.0) == y as real;
  }

  /** At the offset of a stop the colour is that stop's colour exactly. */
  lemma InterpAtStop(stops: seq<Stop>, j: nat)
    requires Increasing(stops) && j < |stops|
    requires forall i :: 0 <= i < |stops| ==> |stops[i].color| == |stops[j].color|
    ensures Interp(stops, stops[j].offset) == stops[j].color
  {
    var t := stops[j].offset;
    if |stops| == 1 {
    } else if j == 0 {
      InterpSegment(stops, t, 0);
      assert (t - t) / (stops[1].offset - t) == 0.0;
      BlendEnds(stops[0].color, stops[1].color);
    } else {
      InterpSegment(stops, t, j - 1);
      var u := stops[j - 1].offset;
      assert (t - u) / (t - u) == 1.0 by { assert u < t; SvgMatrix.SelfQuotient(t - u); }
      BlendEnds(stops[j - 1].color, stops[j].color);
    }
  }

  /** Each channel of a blend lies between the two colours' channels. */
  lemma BlendBetween(lo: seq<int>, hi: seq<int>, alpha: real, i: nat)
    requires 0.0 <= alpha <= 1.0 && i < |lo| && i < |hi|
    ensures var c := Blend(lo, hi, alpha)[i];
            (lo[i] <= c <= hi[i]) || (hi[i] <= c <= lo[i])
  {
    assert Blend(lo, hi, alpha)[i] == Mix(lo[i], hi[i], alpha);
    MixBetween(lo[i], hi[i], alpha);
  }

  lemma MixBetween(x: int, y: int, alpha: real)
    requires 0.0 <= alpha <= 1.0
    ensures (x <= Mix(x, y, alpha) <= y) || (y <= Mix(x, y, alpha) <= x)
  {
    Convex(x as real, y as real, alpha);
    if x <= y {
      TruncBetween(Lerp(x as real, y as real, alpha), x, y);
    } else {
      TruncBetween(Lerp(x as real, y as real, alpha), y, x);
    }
  }

  /** A weighted mean of two numbers lies between them. */
  lemma Convex(x: real, y: real, alpha: real)
    requires 0.0 <= alpha <= 1.0
    ensures x <= y ==> x <= Lerp(x, y, alpha) <= y
    ensures y < x ==> y <= Lerp(x, y, alpha) <= x
  {
    var d := y - x;
    assert Lerp(x, y, alpha) == x + d * alpha;
    if x <= y {
      ScaleDown(d, alpha);
    } else {
      ScaleDownNegative(d, alpha);
    }
  }

  lemma ScaleDown(d: real, alpha: real)
    requires 0.0 <= d && 0.0 <= alpha <= 1.0
    ensures 0.0 <= d * alpha <= d
  {
  }

  lemma ScaleDownNegative(d: real, alpha: real)
    requires d <= 0.0 && 0.0 <= alpha <= 1.0
    ensures d <= d * alpha <= 0.0
  {
  }

  /** Truncating a number that lies between two integers stays between
      them. */
  lemma TruncBetween(v: real, a: int, b: int)
    requires a as real <= v <= b as real
    ensures a <= Trunc(v) <= b
  {
  }

  /** Inside the range of the stops every channel lies between the
      channels of the two stops around `t`. */
  lemma InterpBetweenStops(stops: seq<Stop>, t: real, k: nat, i: nat)
    requires Increasing(stops) && k + 1 < |stops|
    requires stops[k].offset <= t <= stops[k + 1].offset
    requires k > 0 ==> stops[k].offset < t
    requires i < |stops[k].color| && i < |stops[k + 1].color|
    ensures i < |Interp(stops, t)|
    ensures var c := Interp(stops, t)[i];
            var lo, hi := stops[k].color[i], stops[k + 1].color[i];
            (lo <= c <= hi) || (hi <= c <= lo)
  {
    InterpSegment(stops, t, k);
    var u, v := stops[k].offset, stops[k + 1].offset;
    var alpha := (t - u) / (v - u);
    assert 0.0 <= alpha <= 1.0 by { AlphaInRange(t, u, v); }
    BlendBetween(stops[k].color, stops[k + 1].color, alpha, i);
  }

  lemma AlphaInRange(t: real, u: real, v: real)
    requires u <= t <= v && u < v
    ensures 0.0 <= (t - u) / (v - u) <= 1.0
  {
    QuotientNonNegative(t - u, v - u);
    QuotientAtMostOne(t - u, v - u);
  }

  lemma QuotientNonNegative(p: real, q: real)
    requires p >= 0.0 && q > 0.0
    ensures p / q >= 0.0
  {
  }

  lemma QuotientAtMostOne(p: real, q: real)
    requires p <= q && q > 0.0
    ensures p / q <= 1.0
  {
  }
}
