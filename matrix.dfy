/** The affine transform of squirtle_core's `Matrix` class.

    A transform is the six numbers [a, b, c, d, e, f] of the `transform`
    attribute of SVG 1.1 (section 7.6 of the SVG 1.1 recommendation): it maps
    the point (x, y) to (a*x + c*y + e, b*x + d*y + f). All numbers are exact
    reals; the IEEE rounding of the source is not modelled. */
module SvgMatrix {
  import opened Outcomes
  import opened Tokens

  datatype Point = Point(x: real, y: real)

  datatype Matrix = Matrix(a: real, b: real, c: real, d: real, e: real, f: real)

  /** `[1, 0, 0, 1, 0, 0]`, the value a `Matrix` starts from. */
  const Identity: Matrix := Matrix(1.0, 0.0, 0.0, 1.0, 0.0, 0.0)

  function Translate(x: real, y: real): Matrix
  {
    Matrix(1.0, 0.0, 0.0, 1.0, x, y)
  }

  function Scale(sx: real, sy: real): Matrix
  {
    Matrix(sx, 0.0, 0.0, sy, 0.0, 0.0)
  }

  /** `Matrix.__call__`: the image of a point. */
  function Apply(m: Matrix, p: Point): Point
  {
    Point(m.a * p.x + m.c * p.y + m.e, m.b * p.x + m.d * p.y + m.f)
  }

  /** `Matrix.__mul__`: `Mul(m, n)` applies `n` first, then `m`. */
  function Mul(m: Matrix, n: Matrix): Matrix
  {
    Matrix(m.a * n.a + m.c * n.b, m.b * n.a + m.d * n.b,
           m.a * n.c + m.c * n.d, m.b * n.c + m.d * n.d,
           m.a * n.e + m.c * n.f + m.e, m.b * n.e + m.d * n.f + m.f)
  }

  /** The determinant a*d - b*c that `Matrix.inverse` divides by. */
  function Det(m: Matrix): real
  {
    m.a * m.d - m.b * m.c
  }

  /** `Matrix.inverse`: dividing by a zero determinant raises
      ZeroDivisionError. */
  function Inverse(m: Matrix): (r: Result<Matrix>)
    ensures r.Ok? <==> Det(m) != 0.0
    ensures r.Err? ==> r.error == ZeroDivisionError
  {
    var det := Det(m);
    if det == 0.0 then Err(ZeroDivisionError)
    else Ok(Divided(Cofactors(m), det))
  }

  /** The numerators of the inverse's six entries. */
  function Cofactors(m: Matrix): Matrix
  {
    Matrix(m.d, -m.b, -m.c, m.a, m.c * m.f - m.d * m.e, m.b * m.e - m.a * m.f)
  }

  /** Every entry divided by `det`. */
  function Divided(n: Matrix, det: real): Matrix
    requires det != 0.0
  {
    Matrix(n.a / det, n.b / det, n.c / det, n.d / det, n.e / det, n.f / det)
  }

  /** Applying a product applies the right factor first. */
  lemma ApplyMul(m: Matrix, n: Matrix, p: Point)
    ensures Apply(Mul(m, n), p) == Apply(m, Apply(n, p))
  {
    ApplyMulX(m, n, p);
    ApplyMulY(m, n, p);
  }

  lemma ApplyMulX(m: Matrix, n: Matrix, p: Point)
    ensures Apply(Mul(m, n), p).x == Apply(m, Apply(n, p)).x
  {
    var mn, q := Mul(m, n), Apply(n, p);
    OffsetEntry(m.a, m.c, m.e, n.a, n.b, n.c, n.d, n.e, n.f, p.x, p.y, mn.a, mn.c, mn.e, q.x, q.y);
  }

  lemma ApplyMulY(m: Matrix, n: Matrix, p: Point)
    ensures Apply(Mul(m, n), p).y == Apply(m, Apply(n, p)).y
  {
    var mn, q := Mul(m, n), Apply(n, p);
    OffsetEntry(m.b, m.d, m.f, n.a, n.b, n.c, n.d, n.e, n.f, p.x, p.y, mn.b, mn.d, mn.f, q.x, q.y);
  }

  /** The default matrix leaves every point where it is, and is a unit of
      the product on both sides. */
  lemma IdentityIsNeutral(m: Matrix, p: Point)
    ensures Apply(Identity, p) == p
    ensures Mul(Identity, m) == m && Mul(m, Identity) == m
  {
  }

  /** Composition is associative, so nested group transforms may be
      composed in either grouping. */
  lemma MulAssociative(m: Matrix, n: Matrix, k: Matrix)
    ensures Mul(Mul(m, n), k) == Mul(m, Mul(n, k))
  {
    AssocA(m, n, k); AssocB(m, n, k); AssocC(m, n, k);
    AssocD(m, n, k); AssocE(m, n, k); AssocF(m, n, k);
    var l, r := Mul(Mul(m, n), k), Mul(m, Mul(n, k));
    assert l == Matrix(r.a, r.b, r.c, r.d, r.e, r.f);
  }

  lemma AssocA(m: Matrix, n: Matrix, k: Matrix)
    ensures Mul(Mul(m, n), k).a == Mul(m, Mul(n, k)).a
  {
    var mn, nk := Mul(m, n), Mul(n, k);
    ProductEntry(m.a, m.c, n.a, n.b, n.c, n.d, k.a, k.b, mn.a, mn.c, nk.a, nk.b);
  }

  lemma AssocB(m: Matrix, n: Matrix, k: Matrix)
    ensures Mul(Mul(m, n), k).b == Mul(m, Mul(n, k)).b
  {
    var mn, nk := Mul(m, n), Mul(n, k);
    ProductEntry(m.b, m.d, n.a, n.b, n.c, n.d, k.a, k.b, mn.b, mn.d, nk.a, nk.b);
  }

  lemma AssocC(m: Matrix, n: Matrix, k: Matrix)
    ensures Mul(Mul(m, n), k).c == Mul(m, Mul(n, k)).c
  {
    var mn, nk := Mul(m, n), Mul(n, k);
    ProductEntry(m.a, m.c, n.a, n.b, n.c, n.d, k.c, k.d, mn.a, mn.c, nk.c, nk.d);
  }

  lemma AssocD(m: Matrix, n: Matrix, k: Matrix)
    ensures Mul(Mul(m, n), k).d == Mul(m, Mul(n, k)).d
  {
    var mn, nk := Mul(m, n), Mul(n, k);
    ProductEntry(m.b, m.d, n.a, n.b, n.c, n.d, k.c, k.d, mn.b, mn.d, nk.c, nk.d);
  }

  lemma AssocE(m: Matrix, n: Matrix, k: Matrix)
    ensures Mul(Mul(m, n), k).e == Mul(m, Mul(n, k)).e
  {
    var mn, nk := Mul(m, n), Mul(n, k);
    OffsetEntry(m.a, m.c, m.e, n.a, n.b, n.c, n.d, n.e, n.f, k.e, k.f, mn.a, mn.c, mn.e, nk.e, nk.f);
  }

  lemma AssocF(m: Matrix, n: Matrix, k: Matrix)
    ensures Mul(Mul(m, n), k).f == Mul(m, Mul(n, k)).f
  {
    var mn, nk := Mul(m, n), Mul(n, k);
    OffsetEntry(m.b, m.d, m.f, n.a, n.b, n.c, n.d, n.e, n.f, k.e, k.f, mn.b, mn.d, mn.f, nk.e, nk.f);
  }

  /** One linear entry of a triple product, regrouped: `s`, `t` are entries
      of the left product and `x`, `y` of the right one. */
  lemma ProductEntry(p: real, q: real, na: real, nb: real, nc: real, nd: real, u: real, v: real,
                     s: real, t: real, x: real, y: real)
    requires s == p * na + q * nb && t == p * nc + q * nd
    requires x == na * u + nc * v && y == nb * u + nd * v
    ensures s * u + t * v == p * x + q * y
  {
    Expand2(p, na, q, nb, u);
    Expand2(p, nc, q, nd, v);
    Dist2(p, na * u, nc * v);
    Dist2(q, nb * u, nd * v);
  }

  /** One offset entry of a triple product, regrouped. */
  lemma OffsetEntry(p: real, q: real, pe: real, na: real, nb: real, nc: real, nd: real, ne: real, nf: real,
                    u: real, v: real, s: real, t: real, w: real, x: real, y: real)
    requires s == p * na + q * nb && t == p * nc + q * nd && w == p * ne + q * nf + pe
    requires x == na * u + nc * v + ne && y == nb * u + nd * v + nf
    ensures s * u + t * v + w == p * x + q * y + pe
  {
    ProductEntry(p, q, na, nb, nc, nd, u, v, s, t, x - ne, y - nf);
    Dist2(p, x - ne, ne);
    Dist2(q, y - nf, nf);
  }

  lemma Expand2(p: real, q: real, r: real, s: real, t: real)
    ensures (p * q + r * s) * t == p * (q * t) + r * (s * t)
  {
  }

  lemma Dist2(p: real, x: real, y: real)
    ensures p * (x + y) == p * x + p * y
  {
  }

  /** Multiplying on the right by `translate(x, y)` keeps the linear part
      and moves the offset to the image of (x, y). */
  lemma MulTranslate(m: Matrix, x: real, y: real)
    ensures Mul(m, Translate(x, y)).a == m.a && Mul(m, Translate(x, y)).b == m.b
    ensures Mul(m, Translate(x, y)).c == m.c && Mul(m, Translate(x, y)).d == m.d
    ensures Mul(m, Translate(x, y)).e == Apply(m, Point(x, y)).x
    ensures Mul(m, Translate(x, y)).f == Apply(m, Point(x, y)).y
  {
    var n := Translate(x, y);
    assert n == Matrix(1.0, 0.0, 0.0, 1.0, x, y);
    var r := Mul(m, n);
    assert r.a == m.a * 1.0 + m.c * 0.0;
    assert r.d == m.b * 0.0 + m.d * 1.0;
    assert r.e == m.a * x + m.c * y + m.e;
    assert r.f == m.b * x + m.d * y + m.f;
  }

  /** Every entry multiplied by `k`. */
  function Times(n: Matrix, k: real): Matrix
  {
    Matrix(n.a * k, n.b * k, n.c * k, n.d * k, n.e * k, n.f * k)
  }

  /** The inverse's entries, with the division by the determinant written
      as a product with its reciprocal `k`. */
  function Adjugate(m: Matrix, k: real): Matrix
  {
    Matrix(m.d * k, -m.b * k, -m.c * k, m.a * k,
           (m.c * m.f - m.d * m.e) * k, (m.b * m.e - m.a * m.f) * k)
  }

  lemma AdjugateIsTimes(m: Matrix, k: real)
    ensures Adjugate(m, k) == Times(Cofactors(m), k)
  {
  }

  lemma InverseIsAdjugate(m: Matrix)
    requires Det(m) != 0.0
    ensures Inverse(m) == Ok(Adjugate(m, 1.0 / Det(m)))
  {
    DividedIsTimes(Cofactors(m), Det(m));
    AdjugateIsTimes(m, 1.0 / Det(m));
  }

  /** Dividing every entry by `det` multiplies it by the reciprocal. */
  lemma DividedIsTimes(n: Matrix, det: real)
    requires det != 0.0
    ensures Divided(n, det) == Times(n, 1.0 / det)
  {
    DivIsMulReciprocal(n.a, det);
    DivIsMulReciprocal(n.b, det);
    DivIsMulReciprocal(n.c, det);
    DivIsMulReciprocal(n.d, det);
    DivIsMulReciprocal(n.e, det);
    DivIsMulReciprocal(n.f, det);
  }

  lemma DivIsMulReciprocal(u: real, det: real)
    requires det != 0.0
    ensures u / det == u * (1.0 / det)
  {
  }

  lemma SelfQuotient(k: real)
    requires k != 0.0
    ensures k / k == 1.0
  {
  }

  lemma AdjugateRight(m: Matrix, k: real)
    requires Det(m) * k == 1.0
    ensures Mul(m, Adjugate(m, k)) == Identity
  {
    RightDiagonal(m, k);
    RightOffDiagonal(m, k);
    RightOffsets(m, k);
  }

  lemma RightDiagonal(m: Matrix, k: real)
    requires Det(m) * k == 1.0
    ensures Mul(m, Adjugate(m, k)).a == 1.0 && Mul(m, Adjugate(m, k)).d == 1.0
  {
    ScaledPair(m.a, m.d, m.c, -m.b, k);
    assert m.a * m.d + m.c * -m.b == Det(m);
    ScaledPair(m.b, -m.c, m.d, m.a, k);
    assert m.b * -m.c + m.d * m.a == Det(m);
  }

  lemma RightOffDiagonal(m: Matrix, k: real)
    requires Det(m) * k == 1.0
    ensures Mul(m, Adjugate(m, k)).b == 0.0 && Mul(m, Adjugate(m, k)).c == 0.0
  {
    ScaledPair(m.b, m.d, m.d, -m.b, k);
    assert m.b * m.d + m.d * -m.b == 0.0;
    ScaledPair(m.a, -m.c, m.c, m.a, k);
    assert m.a * -m.c + m.c * m.a == 0.0;
  }

  lemma RightOffsets(m: Matrix, k: real)
    requires Det(m) * k == 1.0
    ensures Mul(m, Adjugate(m, k)).e == 0.0 && Mul(m, Adjugate(m, k)).f == 0.0
  {
    RightOffsetE(m, k);
    RightOffsetF(m, k);
  }

  lemma RightOffsetE(m: Matrix, k: real)
    requires Det(m) * k == 1.0
    ensures Mul(m, Adjugate(m, k)).e == 0.0
  {
    assert (m.a * m.d - m.b * m.c) * k == 1.0;
    AdjugateOffsetE(m.a, m.c, m.d, m.b, m.e, m.f, k);
  }

  lemma RightOffsetF(m: Matrix, k: real)
    requires Det(m) * k == 1.0
    ensures Mul(m, Adjugate(m, k)).f == 0.0
  {
    assert (m.a * m.d - m.b * m.c) * k == 1.0;
    AdjugateOffsetF(m.a, m.b, m.c, m.d, m.e, m.f, k);
  }

  lemma ScaledPair(p: real, q: real, s: real, t: real, k: real)
    ensures p * (q * k) + s * (t * k) == (p * q + s * t) * k
  {
  }

  lemma AdjugateOffsetE(a: real, c: real, d: real, b: real, e: real, f: real, k: real)
    requires (a * d - b * c) * k == 1.0
    ensures a * ((c * f - d * e) * k) + c * ((b * e - a * f) * k) + e == 0.0
  {
    assert a * ((c * f - d * e) * k) + c * ((b * e - a * f) * k) == -((a * d - b * c) * k) * e;
  }

  lemma AdjugateOffsetF(a: real, b: real, c: real, d: real, e: real, f: real, k: real)
    requires (a * d - b * c) * k == 1.0
    ensures b * ((c * f - d * e) * k) + d * ((b * e - a * f) * k) + f == 0.0
  {
    assert b * ((c * f - d * e) * k) + d * ((b * e - a * f) * k) == -((a * d - b * c) * k) * f;
  }

  lemma AdjugateLeft(m: Matrix, k: real)
    requires Det(m) * k == 1.0
    ensures Mul(Adjugate(m, k), m) == Identity
  {
    var l := Mul(Adjugate(m, k), m);
    Expand2(m.d, m.a, -m.c, m.b, k);
    Expand2(-m.b, m.a, m.a, m.b, k);
    Expand2(m.d, m.c, -m.c, m.d, k);
    Expand2(-m.b, m.c, m.a, m.d, k);
    Expand2(m.d, m.e, -m.c, m.f, k);
    Expand2(-m.b, m.e, m.a, m.f, k);
    assert l.a == 1.0;
    assert l.b == 0.0;
    assert l.c == 0.0;
    assert l.d == 1.0;
    assert l.e == 0.0;
    assert l.f == 0.0;
  }

  /** With a non-zero determinant the inverse is a two-sided inverse. */
  lemma InverseIsInverse(m: Matrix)
    requires Det(m) != 0.0
    ensures Inverse(m).Ok?
    ensures Mul(m, Inverse(m).value) == Identity
    ensures Mul(Inverse(m).value, m) == Identity
  {
    InverseIsAdjugate(m);
    AdjugateRight(m, 1.0 / Det(m));
    AdjugateLeft(m, 1.0 / Det(m));
  }

  /** The inverse undoes the transform on every point. */
  lemma InverseUndoesApply(m: Matrix, p: Point)
    requires Det(m) != 0.0
    ensures Inverse(m).Ok? && Apply(Inverse(m).value, Apply(m, p)) == p
  {
    InverseIsInverse(m);
    ApplyMul(Inverse(m).value, m, p);
    IdentityIsNeutral(m, p);
  }

  /** `Matrix(s)` for a string `s`. `numbers` stands for squirtle's
      `parse_list`, the tokeniser applied to the text between the
      parentheses. `matrix(...)` takes its six numbers, `translate(x,y)` and
      `scale(sx,sy)` exactly two (unpacking any other count raises
      ValueError); any other text, the empty string included, leaves the
      identity. */
  function FromString(s: string, numbers: string -> seq<Token>): (r: Result<Matrix>)
  {
    if "matrix(" <= s then
      var vs :- Floats(numbers(Inner(s, 7)));
      if |vs| != 6 then Err(ValueError)
      else Ok(Matrix(vs[0], vs[1], vs[2], vs[3], vs[4], vs[5]))
    else if "translate(" <= s then
      var vs :- Floats(numbers(Inner(s, 10)));
      if |vs| != 2 then Err(ValueError) else Ok(Translate(vs[0], vs[1]))
    else if "scale(" <= s then
      var vs :- Floats(numbers(Inner(s, 6)));
      if |vs| != 2 then Err(ValueError) else Ok(Scale(vs[0], vs[1]))
    else Ok(Identity)
  }

  /** `Matrix(e.get('transform'))`: an absent attribute (None) is the
      identity. */
  function FromAttribute(attr: Option<string>, numbers: string -> seq<Token>): (r: Result<Matrix>)
    ensures attr.None? ==> r == Ok(Identity)
  {
    if attr.None? then Ok(Identity) else FromString(attr.value, numbers)
  }

  lemma TranslateAttribute(s: string, numbers: string -> seq<Token>, x: real, y: real)
    requires "translate(" <= s
    requires numbers(Inner(s, 10)) == [Number(x), Number(y)]
    ensures FromString(s, numbers) == Ok(Matrix(1.0, 0.0, 0.0, 1.0, x, y))
  {
    assert !("matrix(" <= s) by { assert s[0] == 't'; }
  }

  lemma ScaleAttribute(s: string, numbers: string -> seq<Token>, sx: real, sy: real)
    requires "scale(" <= s
    requires numbers(Inner(s, 6)) == [Number(sx), Number(sy)]
    ensures FromString(s, numbers) == Ok(Matrix(sx, 0.0, 0.0, sy, 0.0, 0.0))
  {
    assert !("matrix(" <= s) && !("translate(" <= s) by { assert s[0] == 's'; }
  }

  lemma MatrixAttribute(s: string, numbers: string -> seq<Token>, vs: seq<real>)
    requires "matrix(" <= s && |vs| == 6
    requires numbers(Inner(s, 7)) == seq(6, i requires 0 <= i < 6 => Number(vs[i]))
    ensures FromString(s, numbers) == Ok(Matrix(vs[0], vs[1], vs[2], vs[3], vs[4], vs[5]))
  {
    var ts := numbers(Inner(s, 7));
    assert Floats(ts).Ok? && Floats(ts).value == vs;
  }

  /** Any text without one of the three prefixes, including the empty
      string, gives the identity, whatever the tokeniser would say. */
  lemma OtherAttribute(s: string, numbers: string -> seq<Token>)
    requires !("matrix(" <= s) && !("translate(" <= s) && !("scale(" <= s)
    ensures FromString(s, numbers) == Ok(Identity)
    ensures FromString("", numbers) == Ok(Identity)
  {
  }

  /** A wrong count of numbers is an error, never a silent default. */
  lemma TranslateArity(s: string, numbers: string -> seq<Token>)
    requires "translate(" <= s
    requires forall i :: 0 <= i < |numbers(Inner(s, 10))| ==> numbers(Inner(s, 10))[i].Number?
    ensures FromString(s, numbers).Ok? <==> |numbers(Inner(s, 10))| == 2
  {
    assert !("matrix(" <= s) by { assert s[0] == 't'; }
  }
}
