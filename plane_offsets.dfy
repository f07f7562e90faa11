/** Where `set_pixel_data` finds the three planes of a YCbCr frame that arrives
    as one contiguous buffer: luma first, then the two chroma planes. */
module PlaneOffsets {
  import opened CppUnsigned

  /** The offsets of the Y, Cb and Cr planes, evaluated as the adapter does:
      `W * H` for Cb and `W * H + (W / sx * H / sy)` for Cr, where `*` and `/`
      associate to the left and every step is an unsigned 32-bit operation. */
  function YCbCrPlaneOffsets(width: u32, height: u32, sx: u32, sy: u32): (offsets: seq<u32>)
    requires sx != 0 && sy != 0
    ensures |offsets| == 3 && offsets[0] == 0
  {
    var lumaSize := Mul(width, height);
    [0, lumaSize, Add(lumaSize, Div(Mul(Div(width, sx), height), sy))]
  }

  /** The exact Cr offset, with no wrap-around: `W*H + ((W/sx)*H)/sy`. */
  function ExactCrOffset(width: nat, height: nat, sx: nat, sy: nat): nat
    requires sx > 0 && sy > 0
  {
    width * height + ((width / sx) * height) / sy
  }

  /** The size of one chroma plane as the library lays it out: `(W/sx) * (H/sy)` samples. */
  function ChromaPlaneSize(width: nat, height: nat, sx: nat, sy: nat): nat
    requires sx > 0 && sy > 0
  {
    (width / sx) * (height / sy)
  }

  lemma MulMonotone(a: nat, b: nat, c: nat)
    requires a <= b
    ensures a * c <= b * c
  {
    assert b * c == a * c + (b - a) * c;
  }

  /** Euclidean division is determined by quotient and remainder. */
  lemma DivUnique(a: nat, d: nat, q: nat, r: nat)
    requires 0 <= r < d && a == d * q + r
    ensures a / d == q
  {
    var q', r' := a / d, a % d;
    assert a == d * q' + r';
    if q' < q {
      MulMonotone(q' + 1, q, d);
      assert false;
    } else if q < q' {
      MulMonotone(q + 1, q', d);
      assert false;
    }
  }

  /** Adding a multiple of the divisor adds to the quotient. */
  lemma DivAddMultiple(d: nat, q: nat, x: nat)
    requires d > 0
    ensures (d * q + x) / d == q + x / d
  {
    var t, u := x / d, x % d;
    assert x == d * t + u;
    assert d * q + x == d * (q + t) + u;
    DivUnique(d * q + x, d, q + t, u);
  }

  /** Fewer than `d` rows of `c` samples, divided by `d`, make fewer than `c`. */
  lemma DivBelow(c: nat, m: nat, d: nat)
    requires c > 0 && m < d
    ensures (c * m) / d < c
  {
    var e := (c * m) / d;
    MulMonotone(m, d - 1, c);
    assert c * m < c * d;
    assert d * e <= c * m;
    if e >= c {
      MulMonotone(c, e, d);
      assert false;
    }
  }

  /** Dividing by `sy` after multiplying by `H`, as the adapter does, rather than
      before, as the size of a subsampled plane does: never less, the same when
      `sy` divides `H`, and short of one more chroma row of `cw` samples. */
  lemma DivideAfterMultiplying(cw: nat, h: nat, sy: nat)
    requires sy > 0
    ensures cw * (h / sy) <= (cw * h) / sy
    ensures h % sy == 0 ==> (cw * h) / sy == cw * (h / sy)
    ensures cw > 0 ==> (cw * h) / sy < cw * (h / sy) + cw
  {
    var k, m := h / sy, h % sy;
    Distribute(cw, sy, k, m);
    assert cw * h == sy * (cw * k) + cw * m;
    DivAddMultiple(sy, cw * k, cw * m);
    assert (cw * h) / sy == cw * k + (cw * m) / sy;
    if m == 0 {
      assert cw * m == 0;
    }
    if cw > 0 {
      DivBelow(cw, m, sy);
    }
  }

  /** Distributing `c` over `d * k + m`, kept apart so that the solver meets it alone. */
  lemma Distribute(c: nat, d: nat, k: nat, m: nat)
    ensures c * (d * k + m) == d * (c * k) + c * m
  {
  }

  /** When the exact Cr offset fits in 32 bits nothing wraps: the offsets are the
      exact values, in increasing order. */
  lemma {:induction false} PlaneOffsetsWithoutWrap(width: u32, height: u32, sx: u32, sy: u32)
    requires sx != 0 && sy != 0
    requires ExactCrOffset(width as nat, height as nat, sx as nat, sy as nat) < MODULUS
    ensures var offsets := YCbCrPlaneOffsets(width, height, sx, sy);
      && offsets[1] as int == width as int * height as int
      && offsets[2] as int == ExactCrOffset(width as nat, height as nat, sx as nat, sy as nat)
      && offsets[0] <= offsets[1] <= offsets[2]
  {
    var w, h := width as nat, height as nat;
    var cw := Div(width, sx);
    assert cw as nat <= w by {
      MulMonotone(1, sx as nat, cw as nat);
    }
    MulMonotone(cw as nat, w, h);
    assert Mul(cw, height) as int == cw as int * h;
  }

  /** In every case, wrapped or not: the Cb offset is `W*H` reduced modulo 2^32,
      and the Cr offset is the sum of that and the wrapped product `(W/sx)*H`
      divided by `sy`, reduced modulo 2^32 again. */
  lemma PlaneOffsetsModular(width: u32, height: u32, sx: u32, sy: u32)
    requires sx != 0 && sy != 0
    ensures var offsets := YCbCrPlaneOffsets(width, height, sx, sy);
      var (w, h) := (width as int, height as int);
      var lumaSize := (w * h) % MODULUS;
      && offsets[1] as int == lumaSize
      && offsets[2] as int == (lumaSize + (((w / sx as int) * h) % MODULUS) / sy as int) % MODULUS
  {
  }

  /** Without wrap-around the Cr plane starts after the whole Cb plane, exactly at
      its end when `sy` divides `H`, and less than one chroma row past it. */
  lemma CrPlaneFollowsCbPlane(width: u32, height: u32, sx: u32, sy: u32)
    requires sx != 0 && sy != 0
    requires ExactCrOffset(width as nat, height as nat, sx as nat, sy as nat) < MODULUS
    ensures var offsets := YCbCrPlaneOffsets(width, height, sx, sy);
      var cbSize := ChromaPlaneSize(width as nat, height as nat, sx as nat, sy as nat);
      && offsets[1] as int + cbSize <= offsets[2] as int
      && (height % sy == 0 ==> offsets[2] as int == offsets[1] as int + cbSize)
      && (width / sx > 0 ==> offsets[2] as int < offsets[1] as int + cbSize + (width / sx) as int)
  {
    PlaneOffsetsWithoutWrap(width, height, sx, sy);
    DivideAfterMultiplying(width as nat / sx as nat, height as nat, sy as nat);
  }

  /** With an odd height and 2x2 subsampling the Cr offset is not `W*H + (W/sx)*(H/sy)`. */
  lemma OddHeightCrOffset()
    ensures YCbCrPlaneOffsets(4, 3, 2, 2) == [0, 12, 15]
    ensures 4 * 3 + ChromaPlaneSize(4, 3, 2, 2) == 14
  {
  }

  /** A 65536 x 65536 frame wraps the luma size to 0: the Cb offset lands on the Y plane. */
  lemma LumaSizeWraps()
    ensures YCbCrPlaneOffsets(65536, 65536, 2, 2) == [0, 0, 0x4000_0000]
  {
  }
}
