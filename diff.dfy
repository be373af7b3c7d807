/** The sprite checks of sprites/diff.py: `compute_diff` marks where two
    square images differ, and `flip_img` mirrors an image left to right and
    top to bottom. An image is a 2-D array of pixels indexed `[x, y]`, its
    first dimension the width. Each method is specified by a function on the
    image's grid of pixels, `Grid(a)[x][y] == a[x, y]`, and the lemmas are
    about those functions. */
module SpriteDiff {
  import opened Errors

  /** An RGBA pixel. */
  datatype Pixel = Pixel(r: int, g: int, b: int, a: int)

  /** The colour of unchanged pixels in a diff: indigo, the last value the
      module gives `DIFF_BG`. */
  const DIFF_BG := Pixel(75, 0, 130, 255)

  /** What `Image.new("RGBA", size)` fills a new image with. */
  const TRANSPARENT := Pixel(0, 0, 0, 0)

  /** A grid of `n` columns of `n` pixels. */
  predicate Square(g: seq<seq<Pixel>>, n: nat) {
    |g| == n && forall x :: 0 <= x < n ==> |g[x]| == n
  }

  ghost function Grid(a: array2<Pixel>): (g: seq<seq<Pixel>>)
    reads a
    ensures |g| == a.Length0 && forall x :: 0 <= x < a.Length0 ==> |g[x]| == a.Length1
    ensures forall x, y :: 0 <= x < a.Length0 && 0 <= y < a.Length1 ==> g[x][y] == a[x, y]
  {
    seq(a.Length0, x requires 0 <= x < a.Length0 reads a =>
      seq(a.Length1, y requires 0 <= y < a.Length1 reads a => a[x, y]))
  }

  /** Two grids of `n` by `n` pixels agreeing everywhere are equal. */
  lemma SquareEq(g: seq<seq<Pixel>>, h: seq<seq<Pixel>>, n: nat)
    requires Square(g, n) && Square(h, n)
    requires forall x, y :: 0 <= x < n && 0 <= y < n ==> g[x][y] == h[x][y]
    ensures g == h
  {
    forall x | 0 <= x < n
      ensures g[x] == h[x]
    {
    }
  }

  /** One pixel of a diff: the new pixel where the two differ, the
      background where they agree. */
  function DiffPixel(o: Pixel, n: Pixel): Pixel {
    if o != n then n else DIFF_BG
  }

  /** The diff of two `n` by `n` grids, pixel by pixel. */
  function Diff(oldImg: seq<seq<Pixel>>, newImg: seq<seq<Pixel>>, n: nat): (d: seq<seq<Pixel>>)
    requires Square(oldImg, n) && Square(newImg, n)
    ensures Square(d, n)
    ensures forall x, y :: 0 <= x < n && 0 <= y < n ==> d[x][y] == DiffPixel(oldImg[x][y], newImg[x][y])
  {
    seq(n, x requires 0 <= x < n => seq(n, y requires 0 <= y < n => DiffPixel(oldImg[x][y], newImg[x][y])))
  }

  /** The grid mirrored left to right. */
  function FlipX(g: seq<seq<Pixel>>, n: nat): (f: seq<seq<Pixel>>)
    requires Square(g, n)
    ensures Square(f, n)
    ensures forall x, y :: 0 <= x < n && 0 <= y < n ==> f[x][y] == g[n - 1 - x][y]
  {
    seq(n, x requires 0 <= x < n => g[n - 1 - x])
  }

  /** The grid mirrored top to bottom. */
  function FlipY(g: seq<seq<Pixel>>, n: nat): (f: seq<seq<Pixel>>)
    requires Square(g, n)
    ensures Square(f, n)
    ensures forall x, y :: 0 <= x < n && 0 <= y < n ==> f[x][y] == g[x][n - 1 - y]
  {
    seq(n, x requires 0 <= x < n => seq(n, y requires 0 <= y < n => g[x][n - 1 - y]))
  }

  /** A grid of `n` by `n` copies of `p`. */
  function Uniform(n: nat, p: Pixel): (u: seq<seq<Pixel>>)
    ensures Square(u, n) && forall x, y :: 0 <= x < n && 0 <= y < n ==> u[x][y] == p
  {
    seq(n, x => seq(n, y => p))
  }

  /** Mirroring twice, either way, gives back the grid. */
  lemma FlipTwice(g: seq<seq<Pixel>>, n: nat)
    requires Square(g, n)
    ensures FlipX(FlipX(g, n), n) == g
    ensures FlipY(FlipY(g, n), n) == g
  {
    SquareEq(FlipX(FlipX(g, n), n), g, n);
    SquareEq(FlipY(FlipY(g, n), n), g, n);
  }

  /** An image's diff with itself is all background. */
  lemma DiffSelf(g: seq<seq<Pixel>>, n: nat)
    requires Square(g, n)
    ensures Diff(g, g, n) == Uniform(n, DIFF_BG)
  {
    SquareEq(Diff(g, g, n), Uniform(n, DIFF_BG), n);
  }

  /** A diff is all background exactly when, at every pixel, the images
      agree or the new image has the background colour. */
  lemma DiffUniform(oldImg: seq<seq<Pixel>>, newImg: seq<seq<Pixel>>, n: nat)
    requires Square(oldImg, n) && Square(newImg, n)
    ensures Diff(oldImg, newImg, n) == Uniform(n, DIFF_BG) <==>
      forall x, y :: 0 <= x < n && 0 <= y < n ==> oldImg[x][y] == newImg[x][y] || newImg[x][y] == DIFF_BG
  {
    if forall x, y :: 0 <= x < n && 0 <= y < n ==> oldImg[x][y] == newImg[x][y] || newImg[x][y] == DIFF_BG {
      SquareEq(Diff(oldImg, newImg, n), Uniform(n, DIFF_BG), n);
    }
    if Diff(oldImg, newImg, n) == Uniform(n, DIFF_BG) {
      forall x, y | 0 <= x < n && 0 <= y < n
        ensures oldImg[x][y] == newImg[x][y] || newImg[x][y] == DIFF_BG
      {
        assert Diff(oldImg, newImg, n)[x][y] == DIFF_BG;
      }
    }
  }

  /** Laying a diff over the old image: the diff's pixel where it is not the
      background, the old pixel where it is. */
  function Patch(oldImg: seq<seq<Pixel>>, d: seq<seq<Pixel>>, n: nat): (p: seq<seq<Pixel>>)
    requires Square(oldImg, n) && Square(d, n)
    ensures Square(p, n)
    ensures forall x, y :: 0 <= x < n && 0 <= y < n ==>
      p[x][y] == (if d[x][y] == DIFF_BG then oldImg[x][y] else d[x][y])
  {
    seq(n, x requires 0 <= x < n =>
      seq(n, y requires 0 <= y < n => if d[x][y] == DIFF_BG then oldImg[x][y] else d[x][y]))
  }

  /** The diff rebuilds the new image from the old one, unless the new image
      changed a pixel to the background colour itself. */
  lemma PatchDiff(oldImg: seq<seq<Pixel>>, newImg: seq<seq<Pixel>>, n: nat)
    requires Square(oldImg, n) && Square(newImg, n)
    requires forall x, y :: 0 <= x < n && 0 <= y < n && oldImg[x][y] != newImg[x][y] ==> newImg[x][y] != DIFF_BG
    ensures Patch(oldImg, Diff(oldImg, newImg, n), n) == newImg
  {
    SquareEq(Patch(oldImg, Diff(oldImg, newImg, n), n), newImg, n);
  }

  /** An image that is its own mirror image has an all-background diff with
      its mirror. */
  lemma SymmetricDiff(g: seq<seq<Pixel>>, n: nat)
    requires Square(g, n) && FlipX(g, n) == g
    ensures Diff(g, FlipX(g, n), n) == Uniform(n, DIFF_BG)
  {
    DiffSelf(g, n);
  }

  /** `compute_diff`: both images must have the same size and be square; the
      result is a new image of that size holding their diff. */
  method ComputeDiff(oldImg: array2<Pixel>, newImg: array2<Pixel>) returns (r: Result<array2<Pixel>>)
    ensures r.Err? <==> !(oldImg.Length0 == newImg.Length0 && oldImg.Length1 == newImg.Length1 && oldImg.Length0 == oldImg.Length1)
    ensures r.Err? ==> r.error == AssertionError
    ensures r.Ok? ==>
      var n := oldImg.Length0;
      fresh(r.value) && r.value.Length0 == n && r.value.Length1 == n &&
      Diff(Grid(oldImg), Grid(newImg), n) == Grid(r.value)
  {
    var size := oldImg.Length0;
    if oldImg.Length0 != newImg.Length0 || oldImg.Length1 != newImg.Length1 {
      return Err(AssertionError);
    }
    if size != oldImg.Length1 {
      return Err(AssertionError);
    }
    var out := new Pixel[size, size]((x, y) => DIFF_BG);
    for x := 0 to size
      invariant forall i, j :: 0 <= i < x && 0 <= j < size ==> out[i, j] == DiffPixel(oldImg[i, j], newImg[i, j])
      invariant forall i, j :: x <= i < size && 0 <= j < size ==> out[i, j] == DIFF_BG
    {
      for y := 0 to size
        invariant forall i, j :: 0 <= i < x && 0 <= j < size ==> out[i, j] == DiffPixel(oldImg[i, j], newImg[i, j])
        invariant forall j :: 0 <= j < y ==> out[x, j] == DiffPixel(oldImg[x, j], newImg[x, j])
        invariant forall j :: y <= j < size ==> out[x, j] == DIFF_BG
        invariant forall i, j :: x < i < size && 0 <= j < size ==> out[i, j] == DIFF_BG
      {
        if oldImg[x, y] != newImg[x, y] {
          out[x, y] := newImg[x, y];
        }
      }
    }
    SquareEq(Diff(Grid(oldImg), Grid(newImg), size), Grid(out), size);
    r := Ok(out);
  }

  /** `flip_img`: the image must be square; the results are new images
      holding it mirrored left to right and top to bottom. */
  method FlipImg(img: array2<Pixel>) returns (r: Result<(array2<Pixel>, array2<Pixel>)>)
    ensures r.Err? <==> img.Length0 != img.Length1
    ensures r.Err? ==> r.error == AssertionError
    ensures r.Ok? ==>
      var n := img.Length0;
      var (outx, outy) := r.value;
      fresh(outx) && fresh(outy) && outx != outy &&
      outx.Length0 == n && outx.Length1 == n && outy.Length0 == n && outy.Length1 == n &&
      FlipX(Grid(img), n) == Grid(outx) && FlipY(Grid(img), n) == Grid(outy)
  {
    if img.Length0 != img.Length1 {
      return Err(AssertionError);
    }
    var size := img.Length0;
    var outx := new Pixel[size, size]((x, y) => TRANSPARENT);
    var outy := new Pixel[size, size]((x, y) => TRANSPARENT);
    for x := 0 to size
      invariant forall i, j :: size - x <= i < size && 0 <= j < size ==> outx[i, j] == img[size - 1 - i, j]
      invariant forall i, j :: 0 <= i < x && 0 <= j < size ==> outy[i, j] == img[i, size - 1 - j]
    {
      FlipColumn(img, outx, outy, x);
    }
    SquareEq(FlipX(Grid(img), size), Grid(outx), size);
    SquareEq(FlipY(Grid(img), size), Grid(outy), size);
    r := Ok((outx, outy));
  }

  /** The inner loop of `flip_img` for column `x`: the column goes to the
      mirrored column of `outx` and, upside down, to the same column of
      `outy`; every other column is left alone. */
  method FlipColumn(img: array2<Pixel>, outx: array2<Pixel>, outy: array2<Pixel>, x: nat)
    requires img.Length0 == img.Length1 && x < img.Length0
    requires outx.Length0 == outx.Length1 == outy.Length0 == outy.Length1 == img.Length0
    requires outx != img && outy != img && outx != outy
    modifies outx, outy
    ensures var n := img.Length0;
      forall j :: 0 <= j < n ==> outx[n - 1 - x, j] == img[x, j] && outy[x, j] == img[x, n - 1 - j]
    ensures var n := img.Length0;
      forall i, j :: 0 <= i < n && 0 <= j < n && i != n - 1 - x ==> outx[i, j] == old(outx[i, j])
    ensures var n := img.Length0;
      forall i, j :: 0 <= i < n && 0 <= j < n && i != x ==> outy[i, j] == old(outy[i, j])
  {
    var size := img.Length0;
    for y := 0 to size
      invariant forall j :: 0 <= j < y ==> outx[size - 1 - x, j] == img[x, j]
      invariant forall j :: size - y <= j < size ==> outy[x, j] == img[x, size - 1 - j]
      invariant forall i, j :: 0 <= i < size && 0 <= j < size && i != size - 1 - x ==> outx[i, j] == old(outx[i, j])
      invariant forall i, j :: 0 <= i < size && 0 <= j < size && i != x ==> outy[i, j] == old(outy[i, j])
    {
      outx[size - x - 1, y] := img[x, y];
      outy[x, size - y - 1] := img[x, y];
    }
  }

  /** Flipping the x-mirror again gives back the original pixels. */
  method FlipBack(img: array2<Pixel>) returns (back: Result<(array2<Pixel>, array2<Pixel>)>)
    requires img.Length0 == img.Length1
    ensures back.Ok? && Grid(back.value.0) == Grid(img)
  {
    var once := FlipImg(img);
    back := FlipImg(once.value.0);
    FlipTwice(Grid(img), img.Length0);
  }
}
