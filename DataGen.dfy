/** The synthetic multi-modal data generator (data_generator.py).

    Every draw of numpy's global random stream is an explicit input: a unit
    draw in [0, 1) where the source draws uniformly (turned into a range by
    `Uniform` and `RandInt` exactly as the source's arguments say), a real for
    a Gaussian sample and a non-negative real for an exponential or
    log-normal sample. The sine waveforms are functions into [-1, 1]. The
    arrays the source fills and then updates in place through masks and
    slices are Dafny arrays updated by loops; a vectorised expression that
    builds a whole array is an array built by an initialising function. */
module DataGen {
  import opened Common

  /** Why a generator call raises instead of returning its frame. */
  datatype GenStatus =
    | Generated
    | NoFrames        // `pd.concat([])`: no sensor or storage unit was asked for
    | TooFewDays      // `np.random.choice(range(30, n_days), 2, replace=False)` with fewer than two days to choose from
    | EmptyHeight     // `np.random.randint(0, 0)`: a spot centre in an image 0 pixels high

  // =====================================================================
  // UAV RGB images: a green field with brown disk-shaped leaf spots

  /** The draws for one spot: its centre, radius and brown colour. */
  datatype SpotDraw = SpotDraw(x: Draw, y: Draw, radius: Draw, red: Draw, green: Draw, blue: Draw)

  /** The draws for one image: the green value of every pixel, the disease
      branch, the number of spots, and the spots in painting order. */
  datatype RgbDraw = RgbDraw(green: (nat, nat) -> Draw, disease: Draw, count: Draw, spot: nat -> SpotDraw)

  /** 40% of the images take the disease branch. */
  predicate Diseased(d: RgbDraw)
  {
    d.disease < 0.4
  }

  /** `np.random.randint(5, 15)` spots. */
  function SpotCount(d: RgbDraw): (n: nat)
    ensures 5 <= n < 15
  {
    RandInt(5, 15, d.count)
  }

  datatype Spot = Spot(x: int, y: int, radius: int, red: real, green: real, blue: real)

  /** A spot as drawn for an image `h` pixels high: both centre coordinates
      come from `randint(0, img_size[0])`, the radius from `randint(10, 30)`
      and the colour from three uniform ranges. */
  function SpotOf(s: SpotDraw, h: nat): (sp: Spot)
    requires h > 0
    ensures 0 <= sp.x < h && 0 <= sp.y < h && 10 <= sp.radius < 30
    ensures 0.3 <= sp.red < 0.5 && 0.2 <= sp.green < 0.4 && 0.1 <= sp.blue < 0.3
  {
    Spot(RandInt(0, h, s.x), RandInt(0, h, s.y), RandInt(10, 30, s.radius),
         Uniform(0.3, 0.5, s.red), Uniform(0.2, 0.4, s.green), Uniform(0.1, 0.3, s.blue))
  }

  /** The spot's mask: `(x_coords - x)**2 + (y_coords - y)**2 <= r**2`, where
      the x coordinate is the column. */
  predicate InDisk(sp: Spot, row: int, col: int)
  {
    (col - sp.x) * (col - sp.x) + (row - sp.y) * (row - sp.y) <= sp.radius * sp.radius
  }

  function Colour(sp: Spot, ch: nat): real
    requires ch < 3
  {
    if ch == 0 then sp.red else if ch == 1 then sp.green else sp.blue
  }

  /** A pixel of the healthy base image: red and blue 0, green uniform in [0.4, 0.7). */
  function BasePixel(d: RgbDraw, row: nat, col: nat, ch: nat): real
  {
    if ch == 1 then Uniform(0.4, 0.7, d.green(row, col)) else 0.0
  }

  /** A pixel after the first `k` spots are painted over the base image. */
  function Painted(d: RgbDraw, h: nat, row: nat, col: nat, ch: nat, k: nat): real
    requires h > 0 && ch < 3
  {
    if k == 0 then BasePixel(d, row, col, ch)
    else
      var sp := SpotOf(d.spot(k - 1), h);
      if InDisk(sp, row, col) then Colour(sp, ch) else Painted(d, h, row, col, ch, k - 1)
  }

  /** A pixel of the generated image. */
  function UavPixel(d: RgbDraw, h: nat, row: nat, col: nat, ch: nat): real
    requires h > 0 && ch < 3
  {
    if Diseased(d) then Painted(d, h, row, col, ch, SpotCount(d)) else BasePixel(d, row, col, ch)
  }

  /** Of the spots covering a pixel, the one painted last decides its colour. */
  lemma {:induction false} LastSpotWins(d: RgbDraw, h: nat, row: nat, col: nat, ch: nat, k: nat, j: nat)
    requires h > 0 && ch < 3 && j < k
    requires InDisk(SpotOf(d.spot(j), h), row, col)
    requires forall l :: j < l < k ==> !InDisk(SpotOf(d.spot(l), h), row, col)
    ensures Painted(d, h, row, col, ch, k) == Colour(SpotOf(d.spot(j), h), ch)
  {
    if j < k - 1 {
      LastSpotWins(d, h, row, col, ch, k - 1, j);
    }
  }

  /** A pixel no spot covers keeps its base value. */
  lemma {:induction false} UncoveredKeepsBase(d: RgbDraw, h: nat, row: nat, col: nat, ch: nat, k: nat)
    requires h > 0 && ch < 3
    requires forall l :: 0 <= l < k ==> !InDisk(SpotOf(d.spot(l), h), row, col)
    ensures Painted(d, h, row, col, ch, k) == BasePixel(d, row, col, ch)
  {
    if k > 0 {
      UncoveredKeepsBase(d, h, row, col, ch, k - 1);
    }
  }

  /** A pixel some spot covers is brown: each channel lies in that channel's spot colour range. */
  lemma {:induction false} CoveredIsBrown(d: RgbDraw, h: nat, row: nat, col: nat, k: nat)
    requires h > 0
    requires exists l :: 0 <= l < k && InDisk(SpotOf(d.spot(l), h), row, col)
    ensures 0.3 <= Painted(d, h, row, col, 0, k) < 0.5
    ensures 0.2 <= Painted(d, h, row, col, 1, k) < 0.4
    ensures 0.1 <= Painted(d, h, row, col, 2, k) < 0.3
  {
    if !InDisk(SpotOf(d.spot(k - 1), h), row, col) {
      var l :| 0 <= l < k && InDisk(SpotOf(d.spot(l), h), row, col);
      assert l < k - 1;
      CoveredIsBrown(d, h, row, col, k - 1);
    }
  }

  /** A pixel outside every disk, or any pixel of a healthy image, has red =
      blue = 0 and its base green value. */
  lemma UavOutsideDisks(d: RgbDraw, h: nat, row: nat, col: nat)
    requires h > 0
    requires Diseased(d) ==> forall l :: 0 <= l < SpotCount(d) ==> !InDisk(SpotOf(d.spot(l), h), row, col)
    ensures UavPixel(d, h, row, col, 0) == 0.0 && UavPixel(d, h, row, col, 2) == 0.0
    ensures UavPixel(d, h, row, col, 1) == Uniform(0.4, 0.7, d.green(row, col))
  {
    if Diseased(d) {
      UncoveredKeepsBase(d, h, row, col, 0, SpotCount(d));
      UncoveredKeepsBase(d, h, row, col, 1, SpotCount(d));
      UncoveredKeepsBase(d, h, row, col, 2, SpotCount(d));
    }
  }

  /** The green channel tells the two apart: it is below 0.4 exactly at the
      pixels of a diseased image that some spot covers. */
  lemma UavGreenMarksSpots(d: RgbDraw, h: nat, row: nat, col: nat)
    requires h > 0
    ensures UavPixel(d, h, row, col, 1) < 0.4 <==>
            Diseased(d) && exists l :: 0 <= l < SpotCount(d) && InDisk(SpotOf(d.spot(l), h), row, col)
  {
    if Diseased(d) && exists l :: 0 <= l < SpotCount(d) && InDisk(SpotOf(d.spot(l), h), row, col) {
      CoveredIsBrown(d, h, row, col, SpotCount(d));
    } else {
      UavOutsideDisks(d, h, row, col);
    }
  }

  /** `img[mask, c] = colour` for the three channels of one spot. */
  method PaintSpot(img: array3<real>, sp: Spot)
    requires img.Length2 == 3
    modifies img
    ensures forall r, c, ch :: 0 <= r < img.Length0 && 0 <= c < img.Length1 && 0 <= ch < 3 ==>
              img[r, c, ch] == if InDisk(sp, r, c) then Colour(sp, ch) else old(img[r, c, ch])
  {
    var r := 0;
    while r < img.Length0
      invariant 0 <= r <= img.Length0
      invariant forall i, j, ch :: 0 <= i < img.Length0 && 0 <= j < img.Length1 && 0 <= ch < 3 ==>
                  img[i, j, ch] == if i < r && InDisk(sp, i, j) then Colour(sp, ch) else old(img[i, j, ch])
    {
      var c := 0;
      while c < img.Length1
        invariant 0 <= c <= img.Length1
        invariant forall i, j, ch :: 0 <= i < img.Length0 && 0 <= j < img.Length1 && 0 <= ch < 3 ==>
                    img[i, j, ch] == if (i < r || (i == r && j < c)) && InDisk(sp, i, j) then Colour(sp, ch) else old(img[i, j, ch])
      {
        if InDisk(sp, r, c) {
          img[r, c, 0] := sp.red;
          img[r, c, 1] := sp.green;
          img[r, c, 2] := sp.blue;
        }
        c := c + 1;
      }
      r := r + 1;
    }
  }

  /** One image and its label: the loop body of `generate_uav_rgb`. A
      diseased image that is 0 pixels high raises instead, because its first
      spot centre is `randint(0, 0)`. */
  method UavImage(h: nat, w: nat, d: RgbDraw) returns (status: GenStatus, img: array3<real>, imageLabel: int)
    ensures status == EmptyHeight <==> h == 0 && Diseased(d)
    ensures status == Generated || status == EmptyHeight
    ensures status == Generated ==> fresh(img) && img.Length0 == h && img.Length1 == w && img.Length2 == 3
    ensures status == Generated ==> imageLabel == if Diseased(d) then 1 else 0
    ensures status == Generated ==>
              forall r, c, ch :: 0 <= r < h && 0 <= c < w && 0 <= ch < 3 ==> img[r, c, ch] == UavPixel(d, h, r, c, ch)
  {
    img := new real[h, w, 3]((r: nat, c: nat, ch: nat) => BasePixel(d, r, c, ch));
    if Diseased(d) {
      if h == 0 {
        return EmptyHeight, img, 0;
      }
      var n := SpotCount(d);
      for k := 0 to n
        invariant forall r, c, ch :: 0 <= r < h && 0 <= c < w && 0 <= ch < 3 ==> img[r, c, ch] == Painted(d, h, r, c, ch, k)
      {
        PaintSpot(img, SpotOf(d.spot(k), h));
      }
      imageLabel := 1;
    } else {
      imageLabel := 0;
    }
    status := Generated;
  }

  /** `generate_uav_rgb(n_images, (h, w))`: the images in order, each with
      its label, or `EmptyHeight` when the images are 0 pixels high and some
      image takes the disease branch. */
  method GenerateUavRgb(nImages: nat, h: nat, w: nat, draws: nat -> RgbDraw)
    returns (status: GenStatus, images: seq<array3<real>>, labels: seq<int>)
    ensures status == EmptyHeight <==> h == 0 && exists i :: 0 <= i < nImages && Diseased(draws(i))
    ensures status == Generated || status == EmptyHeight
    ensures status == Generated ==> |images| == nImages && |labels| == nImages
    ensures status == Generated ==> forall i :: 0 <= i < nImages ==> labels[i] == if Diseased(draws(i)) then 1 else 0
    ensures status == Generated ==> forall i :: 0 <= i < nImages ==>
              fresh(images[i]) && images[i].Length0 == h && images[i].Length1 == w && images[i].Length2 == 3
    ensures status == Generated ==> forall i, r, c, ch :: 0 <= i < nImages && 0 <= r < h && 0 <= c < w && 0 <= ch < 3 ==>
              images[i][r, c, ch] == UavPixel(draws(i), h, r, c, ch)
  {
    images, labels := [], [];
    for i := 0 to nImages
      invariant |images| == i && |labels| == i
      invariant h == 0 ==> forall j :: 0 <= j < i ==> !Diseased(draws(j))
      invariant forall j :: 0 <= j < i ==> labels[j] == if Diseased(draws(j)) then 1 else 0
      invariant forall j :: 0 <= j < i ==>
                  fresh(images[j]) && images[j].Length0 == h && images[j].Length1 == w && images[j].Length2 == 3
      invariant forall j, r, c, ch :: 0 <= j < i && 0 <= r < h && 0 <= c < w && 0 <= ch < 3 ==>
                  images[j][r, c, ch] == UavPixel(draws(j), h, r, c, ch)
    {
      var imageStatus, img, imageLabel := UavImage(h, w, draws(i));
      if imageStatus == EmptyHeight {
        return EmptyHeight, images, labels;
      }
      images := images + [img];
      labels := labels + [imageLabel];
    }
    status := Generated;
  }

  // =====================================================================
  // Multispectral images: five bands, with stress lowering NIR and red edge

  /** The draws for one image: every pixel's value in every band, the stress
      branch, and the per-pixel stress mask. */
  datatype MsDraw = MsDraw(band: (nat, nat, nat) -> Draw, stressed: Draw, mask: (nat, nat) -> Draw)

  /** The healthy range of band b (red, green, blue, red edge, NIR) is [BandLow(b), BandHigh(b)). */
  function BandLow(b: nat): real
    requires b < 5
  {
    if b == 0 then 0.2 else if b == 1 then 0.3 else if b == 2 then 0.1 else if b == 3 then 0.4 else 0.6
  }

  function BandHigh(b: nat): (hi: real)
    requires b < 5
    ensures BandLow(b) < hi
  {
    if b == 0 then 0.4 else if b == 1 then 0.6 else if b == 2 then 0.3 else if b == 3 then 0.7 else 0.9
  }

  function MsBase(d: MsDraw, row: nat, col: nat, b: nat): (v: real)
    requires b < 5
    ensures BandLow(b) <= v < BandHigh(b)
  {
    Uniform(BandLow(b), BandHigh(b), d.band(row, col, b))
  }

  /** The factor a stressed pixel's band is multiplied by: NIR 0.6, red edge 0.7, red 1.2. */
  function StressFactor(b: nat): real
    requires b < 5
  {
    if b == 4 then 0.6 else if b == 3 then 0.7 else if b == 0 then 1.2 else 1.0
  }

  /** 40% of the images are stressed, and in those 30% of the pixels. */
  predicate StressedPixel(d: MsDraw, row: nat, col: nat)
  {
    d.stressed < 0.4 && d.mask(row, col) < 0.3
  }

  function MsPixel(d: MsDraw, row: nat, col: nat, b: nat): real
    requires b < 5
  {
    if StressedPixel(d, row, col) then MsBase(d, row, col, b) * StressFactor(b) else MsBase(d, row, col, b)
  }

  /** Stress lowers NIR and red edge, raises red, and leaves green and blue
      alone; an unstressed pixel keeps every band. */
  lemma MsStressEffect(d: MsDraw, row: nat, col: nat)
    ensures StressedPixel(d, row, col) ==>
              MsPixel(d, row, col, 4) < MsBase(d, row, col, 4) && MsPixel(d, row, col, 3) < MsBase(d, row, col, 3) &&
              MsPixel(d, row, col, 0) > MsBase(d, row, col, 0)
    ensures forall b :: 0 <= b < 5 && (b == 1 || b == 2 || !StressedPixel(d, row, col)) ==>
              MsPixel(d, row, col, b) == MsBase(d, row, col, b)
  {
  }

  /** Every band of every pixel lies in [0.1, 0.9). */
  lemma MsPixelRange(d: MsDraw, row: nat, col: nat, b: nat)
    requires b < 5
    ensures 0.1 <= MsPixel(d, row, col, b) < 0.9
  {
    var v := MsBase(d, row, col, b);
    assert BandLow(b) <= v < BandHigh(b);
  }

  /** The NIR band tells the two apart: it is below 0.6 exactly at the stressed pixels. */
  lemma MsNirMarksStress(d: MsDraw, row: nat, col: nat)
    ensures MsPixel(d, row, col, 4) < 0.6 <==> StressedPixel(d, row, col)
  {
    var v := MsBase(d, row, col, 4);
    assert 0.6 <= v < 0.9;
  }

  /** `img[stress_mask, 4] *= 0.6`, `img[stress_mask, 3] *= 0.7`, `img[stress_mask, 0] *= 1.2`. */
  method StressPixels(img: array3<real>, mask: (nat, nat) -> Draw)
    requires img.Length2 == 5
    modifies img
    ensures forall r, c, b :: 0 <= r < img.Length0 && 0 <= c < img.Length1 && 0 <= b < 5 ==>
              img[r, c, b] == if mask(r, c) < 0.3 then old(img[r, c, b]) * StressFactor(b) else old(img[r, c, b])
  {
    var r := 0;
    while r < img.Length0
      invariant 0 <= r <= img.Length0
      invariant forall i, j, b :: 0 <= i < img.Length0 && 0 <= j < img.Length1 && 0 <= b < 5 ==>
                  img[i, j, b] == if i < r && mask(i, j) < 0.3 then old(img[i, j, b]) * StressFactor(b) else old(img[i, j, b])
    {
      var c := 0;
      while c < img.Length1
        invariant 0 <= c <= img.Length1
        invariant forall i, j, b :: 0 <= i < img.Length0 && 0 <= j < img.Length1 && 0 <= b < 5 ==>
                    img[i, j, b] == if (i < r || (i == r && j < c)) && mask(i, j) < 0.3
                                    then old(img[i, j, b]) * StressFactor(b) else old(img[i, j, b])
      {
        if mask(r, c) < 0.3 {
          img[r, c, 4] := img[r, c, 4] * 0.6;
          img[r, c, 3] := img[r, c, 3] * 0.7;
          img[r, c, 0] := img[r, c, 0] * 1.2;
        }
        c := c + 1;
      }
      r := r + 1;
    }
  }

  /** One image: the loop body of `generate_multispectral`. */
  method MultispectralImage(h: nat, w: nat, d: MsDraw) returns (img: array3<real>)
    ensures fresh(img) && img.Length0 == h && img.Length1 == w && img.Length2 == 5
    ensures forall r, c, b :: 0 <= r < h && 0 <= c < w && 0 <= b < 5 ==> img[r, c, b] == MsPixel(d, r, c, b)
  {
    img := new real[h, w, 5]((r: nat, c: nat, b: nat) => if b < 5 then MsBase(d, r, c, b) else 0.0);
    if d.stressed < 0.4 {
      StressPixels(img, d.mask);
    }
  }

  /** `generate_multispectral(n_images, (h, w))`. */
  method GenerateMultispectral(nImages: nat, h: nat, w: nat, draws: nat -> MsDraw) returns (images: seq<array3<real>>)
    ensures |images| == nImages
    ensures forall i :: 0 <= i < nImages ==>
              fresh(images[i]) && images[i].Length0 == h && images[i].Length1 == w && images[i].Length2 == 5
    ensures forall i, r, c, b :: 0 <= i < nImages && 0 <= r < h && 0 <= c < w && 0 <= b < 5 ==>
              images[i][r, c, b] == MsPixel(draws(i), r, c, b)
  {
    images := [];
    for i := 0 to nImages
      invariant |images| == i
      invariant forall j :: 0 <= j < i ==>
                  fresh(images[j]) && images[j].Length0 == h && images[j].Length1 == w && images[j].Length2 == 5
      invariant forall j, r, c, b :: 0 <= j < i && 0 <= r < h && 0 <= c < w && 0 <= b < 5 ==>
                  images[j][r, c, b] == MsPixel(draws(j), r, c, b)
    {
      var img := MultispectralImage(h, w, draws(i));
      images := images + [img];
    }
  }

  // =====================================================================
  // Hyperspectral seed spectra with water, protein and fungal absorption

  /** The draws for one seed: the spectrum's Gaussian noise, the health
      branch, the darkening factor, the germination rate and the aflatoxin
      level (a log-normal sample). */
  datatype SeedDraw = SeedDraw(noise: nat -> real, unhealthy: Draw, darken: Draw, germination: Draw, aflatoxin: NonNeg)

  /** The three label lists of `generate_hyperspectral_seed`. */
  datatype SeedLabels = SeedLabels(germinationRate: seq<real>, fungalPresence: seq<int>, aflatoxinPpb: seq<real>)

  /** `np.linspace(400, 2500, n)[k]`. */
  function Wavelength(n: nat, k: nat): real
    requires k < n
  {
    LinspaceAt(400.0, 2500.0, n, k)
  }

  /** The wavelength grid starts at 400 nm, ends at 2500 nm and stays in between. */
  lemma WavelengthRange(n: nat, k: nat)
    requires k < n
    ensures 400.0 <= Wavelength(n, k) <= 2500.0
    ensures k == 0 ==> Wavelength(n, k) == 400.0
    ensures n > 1 && k == n - 1 ==> Wavelength(n, k) == 2500.0
  {
    LinspaceBetween(400.0, 2500.0, n, k);
    if n > 1 {
      LinspaceLast(400.0, 2500.0, n);
    }
  }

  /** `abs(wl - centre) < half`. */
  predicate InWindow(wl: real, centre: real, half: real)
  {
    centre - half < wl < centre + half
  }

  /** `v` after `spectrum[abs(wavelengths - centre) < half] *= factor`. */
  function WindowScaled(v: real, wl: real, centre: real, half: real, factor: real): real
  {
    if InWindow(wl, centre, half) then v * factor else v
  }

  /** A spectrum entry before noise: 0.5, then the two water windows and the protein window. */
  function Absorbed(wl: real): real
  {
    WindowScaled(WindowScaled(WindowScaled(0.5, wl, 1450.0, 50.0, 0.7), wl, 1940.0, 50.0, 0.6), wl, 2180.0, 30.0, 0.8)
  }

  /** The absorption windows do not overlap, so before noise an entry is 0.35
      in the 1450 nm window, 0.3 in the 1940 nm window, 0.4 in the 2180 nm
      window and 0.5 everywhere else. */
  lemma AbsorbedClosedForm(wl: real)
    ensures Absorbed(wl) == if InWindow(wl, 1450.0, 50.0) then 0.35
                            else if InWindow(wl, 1940.0, 50.0) then 0.3
                            else if InWindow(wl, 2180.0, 30.0) then 0.4
                            else 0.5
  {
  }

  /** 30% of the seeds are unhealthy. */
  predicate Unhealthy(d: SeedDraw)
  {
    d.unhealthy < 0.3
  }

  /** `np.random.uniform(0.7, 0.9)`: how much darker an unhealthy seed's spectrum is. */
  function Darkening(d: SeedDraw): (f: real)
    ensures 0.7 <= f < 0.9
  {
    Uniform(0.7, 0.9, d.darken)
  }

  /** Entry k of a seed's spectrum, at wavelength wl. */
  function SpectrumValue(d: SeedDraw, wl: real, k: nat): real
  {
    var v := Absorbed(wl) + d.noise(k);
    if Unhealthy(d) then WindowScaled(v * Darkening(d), wl, 1650.0, 40.0, 0.75) else v
  }

  /** A healthy seed's spectrum is the absorption profile plus noise; an
      unhealthy seed's is that darkened, and darkened further by the fungal
      factor 0.75 within 40 nm of 1650 nm. */
  lemma SpectrumBranches(d: SeedDraw, wl: real, k: nat)
    ensures !Unhealthy(d) ==> SpectrumValue(d, wl, k) == Absorbed(wl) + d.noise(k)
    ensures Unhealthy(d) && !InWindow(wl, 1650.0, 40.0) ==>
              SpectrumValue(d, wl, k) == (Absorbed(wl) + d.noise(k)) * Darkening(d)
    ensures Unhealthy(d) && InWindow(wl, 1650.0, 40.0) ==>
              SpectrumValue(d, wl, k) == (Absorbed(wl) + d.noise(k)) * Darkening(d) * 0.75
  {
  }

  function Germination(d: SeedDraw): (g: real)
    ensures Unhealthy(d) ==> 40.0 <= g < 70.0
    ensures !Unhealthy(d) ==> 75.0 <= g < 95.0
  {
    if Unhealthy(d) then Uniform(40.0, 70.0, d.germination) else Uniform(75.0, 95.0, d.germination)
  }

  function FungalPresence(d: SeedDraw): (f: int)
    ensures f == 0 || f == 1
  {
    if Unhealthy(d) then 1 else 0
  }

  /** The labels agree with each other: germination is below 70 exactly when
      the seed carries the fungus. */
  lemma GerminationMarksFungus(d: SeedDraw)
    ensures Germination(d) < 70.0 <==> FungalPresence(d) == 1
  {
  }

  /** `spectrum[abs(wavelengths - centre) < half] *= factor`. */
  method ScaleWindow(spectrum: array<real>, wavelengths: array<real>, centre: real, half: real, factor: real)
    requires spectrum.Length == wavelengths.Length && spectrum != wavelengths
    modifies spectrum
    ensures forall k :: 0 <= k < spectrum.Length ==>
              spectrum[k] == WindowScaled(old(spectrum[k]), wavelengths[k], centre, half, factor)
  {
    for k := 0 to spectrum.Length
      invariant forall j :: 0 <= j < spectrum.Length ==>
                  spectrum[j] == if j < k then WindowScaled(old(spectrum[j]), wavelengths[j], centre, half, factor) else old(spectrum[j])
    {
      if InWindow(wavelengths[k], centre, half) {
        spectrum[k] := spectrum[k] * factor;
      }
    }
  }

  /** `a += s` for a series `s` (noise, or another waveform), elementwise. */
  method AddSeries(a: array<real>, s: nat -> real)
    modifies a
    ensures forall k :: 0 <= k < a.Length ==> a[k] == old(a[k]) + s(k)
  {
    for k := 0 to a.Length
      invariant forall j :: 0 <= j < a.Length ==> a[j] == old(a[j]) + (if j < k then s(j) else 0.0)
    {
      a[k] := a[k] + s(k);
    }
  }

  /** `spectrum *= f`. */
  method ScaleAll(spectrum: array<real>, f: real)
    modifies spectrum
    ensures forall k :: 0 <= k < spectrum.Length ==> spectrum[k] == old(spectrum[k]) * f
  {
    for k := 0 to spectrum.Length
      invariant forall j :: 0 <= j < spectrum.Length ==> spectrum[j] == if j < k then old(spectrum[j]) * f else old(spectrum[j])
    {
      spectrum[k] := spectrum[k] * f;
    }
  }

  lemma ScaleEqual(a: real, b: real, f: real)
    requires a == b
    ensures a * f == b * f
  {
  }

  /** `np.ones(n) * 0.5` with the two water windows and the protein window absorbed. */
  method AbsorptionProfile(wavelengths: array<real>) returns (spectrum: array<real>)
    ensures fresh(spectrum) && spectrum.Length == wavelengths.Length
    ensures forall k :: 0 <= k < spectrum.Length ==> spectrum[k] == Absorbed(wavelengths[k])
  {
    spectrum := new real[wavelengths.Length](_ => 0.5);
    ScaleWindow(spectrum, wavelengths, 1450.0, 50.0, 0.7);
    ScaleWindow(spectrum, wavelengths, 1940.0, 50.0, 0.6);
    ScaleWindow(spectrum, wavelengths, 2180.0, 30.0, 0.8);
  }

  /** An unhealthy seed's spectrum: darkened by `f`, then the fungal window absorbed. */
  method Degrade(spectrum: array<real>, wavelengths: array<real>, f: real)
    requires spectrum.Length == wavelengths.Length && spectrum != wavelengths
    modifies spectrum
    ensures forall k :: 0 <= k < spectrum.Length ==>
              spectrum[k] == WindowScaled(old(spectrum[k]) * f, wavelengths[k], 1650.0, 40.0, 0.75)
  {
    ScaleAll(spectrum, f);
    ScaleWindow(spectrum, wavelengths, 1650.0, 40.0, 0.75);
  }

  /** One spectrum: the loop body of `generate_hyperspectral_seed`. */
  method SeedSpectrum(wavelengths: array<real>, d: SeedDraw) returns (spectrum: array<real>)
    ensures fresh(spectrum) && spectrum.Length == wavelengths.Length
    ensures forall k :: 0 <= k < spectrum.Length ==> spectrum[k] == SpectrumValue(d, wavelengths[k], k)
  {
    spectrum := AbsorptionProfile(wavelengths);
    AddSeries(spectrum, d.noise);
    if Unhealthy(d) {
      ghost var noisy := spectrum[..];
      var f := Darkening(d);
      Degrade(spectrum, wavelengths, f);
      forall k | 0 <= k < spectrum.Length
        ensures spectrum[k] == SpectrumValue(d, wavelengths[k], k)
      {
        ScaleEqual(noisy[k], Absorbed(wavelengths[k]) + d.noise(k), f);
      }
    }
  }

  /** `generate_hyperspectral_seed(n_samples, n_wavelengths)`. */
  method GenerateHyperspectralSeed(nSamples: nat, nWavelengths: nat, draws: nat -> SeedDraw)
    returns (spectra: seq<array<real>>, wavelengths: array<real>, labels: SeedLabels)
    ensures fresh(wavelengths) && wavelengths.Length == nWavelengths
    ensures forall k :: 0 <= k < nWavelengths ==> wavelengths[k] == Wavelength(nWavelengths, k)
    ensures |spectra| == nSamples
    ensures forall i :: 0 <= i < nSamples ==> fresh(spectra[i]) && spectra[i].Length == nWavelengths
    ensures forall i, k :: 0 <= i < nSamples && 0 <= k < nWavelengths ==>
              spectra[i][k] == SpectrumValue(draws(i), Wavelength(nWavelengths, k), k)
    ensures |labels.germinationRate| == nSamples && |labels.fungalPresence| == nSamples && |labels.aflatoxinPpb| == nSamples
    ensures forall i :: 0 <= i < nSamples ==>
              labels.germinationRate[i] == Germination(draws(i)) &&
              labels.fungalPresence[i] == FungalPresence(draws(i)) &&
              labels.aflatoxinPpb[i] == draws(i).aflatoxin
  {
    wavelengths := new real[nWavelengths]((k: nat) requires k < nWavelengths => Wavelength(nWavelengths, k));
    spectra := [];
    labels := SeedLabels([], [], []);
    for i := 0 to nSamples
      invariant forall k :: 0 <= k < nWavelengths ==> wavelengths[k] == Wavelength(nWavelengths, k)
      invariant |spectra| == i
      invariant forall j :: 0 <= j < i ==> fresh(spectra[j]) && spectra[j].Length == nWavelengths && spectra[j] != wavelengths
      invariant forall j, k :: 0 <= j < i && 0 <= k < nWavelengths ==>
                  spectra[j][k] == SpectrumValue(draws(j), wavelengths[k], k)
      invariant |labels.germinationRate| == i && |labels.fungalPresence| == i && |labels.aflatoxinPpb| == i
      invariant forall j :: 0 <= j < i ==>
                  labels.germinationRate[j] == Germination(draws(j)) &&
                  labels.fungalPresence[j] == FungalPresence(draws(j)) &&
                  labels.aflatoxinPpb[j] == draws(j).aflatoxin
    {
      var d := draws(i);
      var spectrum := SeedSpectrum(wavelengths, d);
      spectra := spectra + [spectrum];
      labels := SeedLabels(labels.germinationRate + [Germination(d)], labels.fungalPresence + [FungalPresence(d)],
                           labels.aflatoxinPpb + [d.aflatoxin]);
    }
  }

  // =====================================================================
  // Shared in-place updates of a sensor series

  /** `a = np.clip(a, lo, hi)`; the clipped array replaces the old one, so
      clipping in place is the same. */
  method ClipSeries(a: array<real>, lo: real, hi: real)
    requires lo <= hi
    modifies a
    ensures forall k :: 0 <= k < a.Length ==> a[k] == Clip(old(a[k]), lo, hi)
  {
    for k := 0 to a.Length
      invariant forall j :: 0 <= j < a.Length ==> a[j] == if j < k then Clip(old(a[j]), lo, hi) else old(a[j])
    {
      a[k] := Clip(a[k], lo, hi);
    }
  }

  // =====================================================================
  // Storage IoT: temperature, humidity, CO2 ramps and a VOC flag after spoilage

  /** Five-minute samples per day. */
  const StorageSamplesPerDay: nat := 288

  /** The draws for one storage unit: the controlled-storage branch, the
      Gaussian noise of three series, and the two draws that choose the
      spoilage days. */
  datatype StorageDraw = StorageDraw(controlled: Draw, tempNoise: nat -> real, rhNoise: nat -> real,
                                     co2Noise: nat -> real, first: Draw, second: Draw)

  /** The series of one unit, one entry per five-minute sample. */
  datatype StorageUnit = StorageUnit(temperature: array<real>, rh: array<real>, co2: array<real>, voc: array<real>)

  /** `np.random.choice(range(30, n_days), size=2, replace=False)`: the first
      day is uniform over the range, the second uniform over what is left. */
  function SpoilageDays(nDays: nat, d: StorageDraw): (days: seq<nat>)
    requires nDays >= 32
    ensures |days| == 2 && days[0] != days[1]
    ensures forall j :: 0 <= j < 2 ==> 30 <= days[j] < nDays
  {
    var first := RandInt(30, nDays, d.first);
    var k := RandInt(0, nDays - 31, d.second);
    [first, if 30 + k < first then 30 + k else 31 + k]
  }

  /** What `co2[start:] += np.linspace(0, 500, n - start)` adds at sample t. */
  function Ramp(n: nat, start: nat, t: nat): real
    requires t < n
  {
    if t >= start then LinspaceAt(0.0, 500.0, n - start, t - start) else 0.0
  }

  /** A ramp adds nothing before its start, 0 at its start, at most 500, and
      exactly 500 at the last sample when it spans more than one sample. */
  lemma RampRange(n: nat, start: nat, t: nat)
    requires t < n
    ensures 0.0 <= Ramp(n, start, t) <= 500.0
    ensures t <= start ==> Ramp(n, start, t) == 0.0
    ensures start + 1 < n && t == n - 1 ==> Ramp(n, start, t) == 500.0
  {
    if t >= start {
      LinspaceBetween(0.0, 500.0, n - start, t - start);
      if start + 1 < n && t == n - 1 {
        LinspaceLast(0.0, 500.0, n - start);
      }
    }
  }

  /** CO2 at sample t before clipping: 400 plus noise plus both spoilage ramps. */
  function Co2Raw(nDays: nat, d: StorageDraw, t: nat): real
    requires nDays >= 32 && t < nDays * StorageSamplesPerDay
  {
    var days := SpoilageDays(nDays, d);
    var n := nDays * StorageSamplesPerDay;
    400.0 + d.co2Noise(t) + Ramp(n, days[0] * StorageSamplesPerDay, t) + Ramp(n, days[1] * StorageSamplesPerDay, t)
  }

  function Co2(nDays: nat, d: StorageDraw, t: nat): real
    requires nDays >= 32 && t < nDays * StorageSamplesPerDay
  {
    Clip(Co2Raw(nDays, d, t), 400.0, 2000.0)
  }

  /** Spoilage only adds CO2: the raw level is never below 400 plus noise, and
      equals it before the earlier spoilage day; so the clipped level the
      generator returns is never below the clipped no-spoilage level, and
      equals it before that day. */
  lemma SpoilageRaisesCo2(nDays: nat, d: StorageDraw, t: nat)
    requires nDays >= 32 && t < nDays * StorageSamplesPerDay
    ensures Co2Raw(nDays, d, t) >= 400.0 + d.co2Noise(t)
    ensures t < StorageSamplesPerDay * Min(SpoilageDays(nDays, d)[0], SpoilageDays(nDays, d)[1]) ==>
              Co2Raw(nDays, d, t) == 400.0 + d.co2Noise(t)
    ensures Co2(nDays, d, t) >= Clip(400.0 + d.co2Noise(t), 400.0, 2000.0)
    ensures t < StorageSamplesPerDay * Min(SpoilageDays(nDays, d)[0], SpoilageDays(nDays, d)[1]) ==>
              Co2(nDays, d, t) == Clip(400.0 + d.co2Noise(t), 400.0, 2000.0)
  {
    var days := SpoilageDays(nDays, d);
    var n := nDays * StorageSamplesPerDay;
    RampRange(n, days[0] * StorageSamplesPerDay, t);
    RampRange(n, days[1] * StorageSamplesPerDay, t);
    ClipMonotone(400.0 + d.co2Noise(t), Co2Raw(nDays, d, t), 400.0, 2000.0);
  }

  function Min(a: nat, b: nat): nat
  {
    if a <= b then a else b
  }

  /** The VOC flag after `voc[start_idx:] = 1` for both spoilage days. */
  function Voc(nDays: nat, d: StorageDraw, t: nat): real
    requires nDays >= 32
  {
    var days := SpoilageDays(nDays, d);
    if t >= days[0] * StorageSamplesPerDay || t >= days[1] * StorageSamplesPerDay then 1.0 else 0.0
  }

  /** The VOC series is a 0/1 step: it is 1 exactly from the first sample of
      the earlier spoilage day on, so it never falls back to 0. */
  lemma VocStep(nDays: nat, d: StorageDraw, t: nat, t': nat)
    requires nDays >= 32
    ensures Voc(nDays, d, t) == 0.0 || Voc(nDays, d, t) == 1.0
    ensures Voc(nDays, d, t) == 1.0 <==> t >= StorageSamplesPerDay * Min(SpoilageDays(nDays, d)[0], SpoilageDays(nDays, d)[1])
    ensures t <= t' ==> Voc(nDays, d, t) <= Voc(nDays, d, t')
  {
  }

  function StorageTemperature(d: StorageDraw, diurnal: nat -> Wave, t: nat): real
  {
    if d.controlled < 0.5 then 22.0 + d.tempNoise(t) else 25.0 + 5.0 * diurnal(t) + d.tempNoise(t)
  }

  function StorageRh(d: StorageDraw, diurnal: nat -> Wave, t: nat): real
  {
    Clip(65.0 + 10.0 * diurnal(t) + d.rhNoise(t), 40.0, 85.0)
  }

  /** `co2[start:] += np.linspace(0, 500, len(co2) - start)`. */
  method AddRamp(co2: array<real>, start: nat)
    requires start <= co2.Length
    modifies co2
    ensures forall t :: 0 <= t < co2.Length ==> co2[t] == old(co2[t]) + Ramp(co2.Length, start, t)
  {
    for t := start to co2.Length
      invariant forall j :: 0 <= j < co2.Length ==>
                  co2[j] == old(co2[j]) + (if j < t then Ramp(co2.Length, start, j) else 0.0)
    {
      co2[t] := co2[t] + LinspaceAt(0.0, 500.0, co2.Length - start, t - start);
    }
  }

  /** `voc[start:] = 1`. */
  method SetFrom(voc: array<real>, start: nat)
    modifies voc
    ensures forall t :: 0 <= t < voc.Length ==> voc[t] == if t >= start then 1.0 else old(voc[t])
  {
    var t := start;
    while t < voc.Length
      invariant forall j :: 0 <= j < voc.Length ==> voc[j] == if start <= j < t then 1.0 else old(voc[j])
    {
      voc[t] := 1.0;
      t := t + 1;
    }
  }

  /** The CO2 series of one unit: noise around 400, both spoilage ramps added, then clipped. */
  method Co2Series(nDays: nat, d: StorageDraw) returns (co2: array<real>)
    requires nDays >= 32
    ensures fresh(co2) && co2.Length == nDays * StorageSamplesPerDay
    ensures forall t :: 0 <= t < co2.Length ==> co2[t] == Co2(nDays, d, t)
  {
    var n := nDays * StorageSamplesPerDay;
    co2 := new real[n](t => 400.0 + d.co2Noise(t));
    var days := SpoilageDays(nDays, d);
    for j := 0 to 2
      invariant forall t :: 0 <= t < n ==>
                  co2[t] == 400.0 + d.co2Noise(t) + (if j > 0 then Ramp(n, days[0] * StorageSamplesPerDay, t) else 0.0)
                                                  + (if j > 1 then Ramp(n, days[1] * StorageSamplesPerDay, t) else 0.0)
    {
      AddRamp(co2, days[j] * StorageSamplesPerDay);
    }
    assert forall t :: 0 <= t < n ==> co2[t] == Co2Raw(nDays, d, t);
    ClipSeries(co2, 400.0, 2000.0);
  }

  /** The VOC series of one unit: zeros, then set to 1 from each spoilage day on. */
  method VocSeries(nDays: nat, d: StorageDraw) returns (voc: array<real>)
    requires nDays >= 32
    ensures fresh(voc) && voc.Length == nDays * StorageSamplesPerDay
    ensures forall t :: 0 <= t < voc.Length ==> voc[t] == Voc(nDays, d, t)
  {
    var n := nDays * StorageSamplesPerDay;
    voc := new real[n](_ => 0.0);
    var days := SpoilageDays(nDays, d);
    for j := 0 to 2
      invariant forall t :: 0 <= t < n ==>
                  voc[t] == if (j > 0 && t >= days[0] * StorageSamplesPerDay) || (j > 1 && t >= days[1] * StorageSamplesPerDay)
                            then 1.0 else 0.0
    {
      SetFrom(voc, days[j] * StorageSamplesPerDay);
    }
  }

  /** One unit's series: the loop body of `generate_storage_iot`, for a day
      count that leaves two spoilage days to choose. */
  method StorageUnitSeries(nDays: nat, d: StorageDraw, diurnal: nat -> Wave) returns (u: StorageUnit)
    requires nDays >= 32
    ensures fresh(u.temperature) && fresh(u.rh) && fresh(u.co2) && fresh(u.voc)
    ensures u.temperature.Length == u.rh.Length == u.co2.Length == u.voc.Length == nDays * StorageSamplesPerDay
    ensures forall t :: 0 <= t < nDays * StorageSamplesPerDay ==>
              u.temperature[t] == StorageTemperature(d, diurnal, t) && u.rh[t] == StorageRh(d, diurnal, t) &&
              u.co2[t] == Co2(nDays, d, t) && u.voc[t] == Voc(nDays, d, t)
  {
    var n := nDays * StorageSamplesPerDay;
    var temperature := new real[n](t => StorageTemperature(d, diurnal, t));
    var rh := new real[n](t => StorageRh(d, diurnal, t));
    var co2 := Co2Series(nDays, d);
    var voc := VocSeries(nDays, d);
    u := StorageUnit(temperature, rh, co2, voc);
  }

  /** How `generate_storage_iot(n_days, n_units)` ends: the first unit's
      spoilage choice raises when fewer than two days lie in [30, n_days), and
      concatenating no frames raises. */
  function StorageStatus(nDays: nat, nUnits: nat): (s: GenStatus)
    ensures s == Generated <==> nUnits > 0 && nDays >= 32
  {
    if nUnits == 0 then NoFrames else if nDays < 32 then TooFewDays else Generated
  }

  /** `generate_storage_iot(n_days, n_units)`: one unit after another. */
  method GenerateStorageIot(nDays: nat, nUnits: nat, draws: nat -> StorageDraw, diurnal: nat -> Wave)
    returns (status: GenStatus, units: seq<StorageUnit>)
    ensures status == StorageStatus(nDays, nUnits)
    ensures status == Generated ==> |units| == nUnits
    ensures status == Generated ==> forall i :: 0 <= i < nUnits ==>
              units[i].co2.Length == nDays * StorageSamplesPerDay && units[i].voc.Length == nDays * StorageSamplesPerDay &&
              units[i].temperature.Length == nDays * StorageSamplesPerDay && units[i].rh.Length == nDays * StorageSamplesPerDay
    ensures status == Generated ==> forall i, t :: 0 <= i < nUnits && 0 <= t < nDays * StorageSamplesPerDay ==>
              units[i].temperature[t] == StorageTemperature(draws(i), diurnal, t) &&
              units[i].rh[t] == StorageRh(draws(i), diurnal, t) &&
              units[i].co2[t] == Co2(nDays, draws(i), t) && units[i].voc[t] == Voc(nDays, draws(i), t)
  {
    units := [];
    for i := 0 to nUnits
      invariant nDays >= 32 || i == 0
      invariant |units| == i
      invariant forall j :: 0 <= j < i ==>
                  units[j].co2.Length == nDays * StorageSamplesPerDay && units[j].voc.Length == nDays * StorageSamplesPerDay &&
                  units[j].temperature.Length == nDays * StorageSamplesPerDay && units[j].rh.Length == nDays * StorageSamplesPerDay
      invariant forall j, t :: 0 <= j < i && 0 <= t < nDays * StorageSamplesPerDay ==>
                  units[j].temperature[t] == StorageTemperature(draws(j), diurnal, t) &&
                  units[j].rh[t] == StorageRh(draws(j), diurnal, t) &&
                  units[j].co2[t] == Co2(nDays, draws(j), t) && units[j].voc[t] == Voc(nDays, draws(j), t)
    {
      if nDays < 32 {
        status := TooFewDays;
        return;
      }
      var u := StorageUnitSeries(nDays, draws(i), diurnal);
      units := units + [u];
    }
    status := if nUnits == 0 then NoFrames else Generated;
  }

  // =====================================================================
  // Soil sensors: moisture, temperature and conductivity every 15 minutes

  /** Fifteen-minute samples per day. */
  const SoilSamplesPerDay: nat := 96

  /** The Gaussian noise of one sensor's three series. */
  datatype SoilDraw = SoilDraw(moisture: nat -> real, temperature: nat -> real, ec: nat -> real)

  /** The sine waveforms at sample index t: sin(2πt/30), sin(2πt/365) and sin(2πt/96). */
  datatype SoilWaves = SoilWaves(monthly: nat -> Wave, seasonal: nat -> Wave, daily: nat -> Wave)

  datatype SoilSensor = SoilSensor(moisture: array<real>, temperature: array<real>, ec: array<real>)

  function SoilMoisture(d: SoilDraw, w: SoilWaves, t: nat): real
  {
    Clip(50.0 + 20.0 * w.monthly(t) + d.moisture(t), 20.0, 80.0)
  }

  function SoilTemperature(d: SoilDraw, w: SoilWaves, t: nat): real
  {
    25.0 + 5.0 * w.seasonal(t) + 3.0 * w.daily(t) + d.temperature(t)
  }

  function SoilEc(d: SoilDraw, w: SoilWaves, t: nat): real
  {
    Clip(1.5 + 0.5 * w.monthly(t) + d.ec(t), 0.5, 3.0)
  }

  /** The clips only bite on large noise: moisture is unclipped when its noise
      is within 10 (two standard deviations) and EC when its noise lies in
      [-0.5, 1.0]. */
  lemma SoilClipsInactive(d: SoilDraw, w: SoilWaves, t: nat)
    ensures -10.0 <= d.moisture(t) <= 10.0 ==> SoilMoisture(d, w, t) == 50.0 + 20.0 * w.monthly(t) + d.moisture(t)
    ensures -0.5 <= d.ec(t) <= 1.0 ==> SoilEc(d, w, t) == 1.5 + 0.5 * w.monthly(t) + d.ec(t)
  {
  }

  /** One sensor's series: the loop body of `generate_soil_sensor_data`. */
  method SoilSensorSeries(nDays: nat, d: SoilDraw, w: SoilWaves) returns (s: SoilSensor)
    ensures fresh(s.moisture) && fresh(s.temperature) && fresh(s.ec)
    ensures s.moisture.Length == s.temperature.Length == s.ec.Length == nDays * SoilSamplesPerDay
    ensures forall t :: 0 <= t < nDays * SoilSamplesPerDay ==>
              s.moisture[t] == SoilMoisture(d, w, t) && s.temperature[t] == SoilTemperature(d, w, t) && s.ec[t] == SoilEc(d, w, t)
  {
    var n := nDays * SoilSamplesPerDay;
    var moisture := new real[n](t => 50.0 + 20.0 * w.monthly(t));
    AddSeries(moisture, d.moisture);
    ClipSeries(moisture, 20.0, 80.0);
    var temperature := new real[n](t => 25.0 + 5.0 * w.seasonal(t));
    AddSeries(temperature, (t: nat) => 3.0 * w.daily(t));
    AddSeries(temperature, d.temperature);
    var ec := new real[n](t => 1.5 + 0.5 * w.monthly(t));
    AddSeries(ec, d.ec);
    ClipSeries(ec, 0.5, 3.0);
    s := SoilSensor(moisture, temperature, ec);
  }

  /** The frame has one row per sensor and sample: the sum of the sensors' series lengths. */
  function SoilRows(sensors: seq<SoilSensor>): nat
  {
    if sensors == [] then 0 else SoilRows(sensors[..|sensors| - 1]) + sensors[|sensors| - 1].moisture.Length
  }

  lemma SoilRowsSnoc(sensors: seq<SoilSensor>, s: SoilSensor)
    ensures SoilRows(sensors + [s]) == SoilRows(sensors) + s.moisture.Length
  {
    assert (sensors + [s])[..|sensors|] == sensors;
  }

  lemma RowCountStep(i: nat, n: nat)
    ensures (i + 1) * n == i * n + n
  {
  }

  lemma RowCountTotal(a: nat, b: nat, c: nat)
    ensures a * b * c == a * (b * c)
  {
  }

  /** `generate_soil_sensor_data(n_days, n_sensors)`. */
  method GenerateSoilSensorData(nDays: nat, nSensors: nat, draws: nat -> SoilDraw, w: SoilWaves)
    returns (status: GenStatus, sensors: seq<SoilSensor>)
    ensures status == (if nSensors == 0 then NoFrames else Generated)
    ensures |sensors| == nSensors && SoilRows(sensors) == nSensors * nDays * SoilSamplesPerDay
    ensures forall i :: 0 <= i < nSensors ==>
              sensors[i].moisture.Length == sensors[i].temperature.Length == sensors[i].ec.Length == nDays * SoilSamplesPerDay
    ensures forall i, t :: 0 <= i < nSensors && 0 <= t < nDays * SoilSamplesPerDay ==>
              sensors[i].moisture[t] == SoilMoisture(draws(i), w, t) &&
              sensors[i].temperature[t] == SoilTemperature(draws(i), w, t) &&
              sensors[i].ec[t] == SoilEc(draws(i), w, t)
  {
    var n := nDays * SoilSamplesPerDay;
    sensors := [];
    for i := 0 to nSensors
      invariant |sensors| == i && SoilRows(sensors) == i * n
      invariant forall j :: 0 <= j < i ==>
                  sensors[j].moisture.Length == sensors[j].temperature.Length == sensors[j].ec.Length == nDays * SoilSamplesPerDay
      invariant forall j, t :: 0 <= j < i && 0 <= t < nDays * SoilSamplesPerDay ==>
                  sensors[j].moisture[t] == SoilMoisture(draws(j), w, t) &&
                  sensors[j].temperature[t] == SoilTemperature(draws(j), w, t) &&
                  sensors[j].ec[t] == SoilEc(draws(j), w, t)
    {
      var s := SoilSensorSeries(nDays, draws(i), w);
      SoilRowsSnoc(sensors, s);
      RowCountStep(i, n);
      sensors := sensors + [s];
    }
    RowCountTotal(nSensors, nDays, SoilSamplesPerDay);
    status := if nSensors == 0 then NoFrames else Generated;
  }

  // =====================================================================
  // Daily weather

  /** The draws for the weather series: Gaussian noise for four of them and
      exponential samples for precipitation and wind. */
  datatype WeatherDraw = WeatherDraw(tmaxNoise: nat -> real, tminNoise: nat -> real, precipitation: nat -> NonNeg,
                                     rhNoise: nat -> real, solarNoise: nat -> real, wind: nat -> NonNeg)

  datatype Weather = Weather(tempMax: array<real>, tempMin: array<real>, precipitation: array<real>,
                             rhMean: array<real>, solarRadiation: array<real>, windSpeed: array<real>)

  /** `season(day)` is sin(2π·day/120). */
  function TempMax(d: WeatherDraw, season: nat -> Wave, day: nat): real
  {
    32.0 + 5.0 * season(day) + d.tmaxNoise(day)
  }

  function TempMin(d: WeatherDraw, season: nat -> Wave, day: nat): real
  {
    TempMax(d, season, day) - 8.0 + d.tminNoise(day)
  }

  /** `precip[precip > 20] = 0`: a sample above 20 becomes a dry day. */
  function Precipitation(d: WeatherDraw, day: nat): real
  {
    if d.precipitation(day) > 20.0 then 0.0 else d.precipitation(day)
  }

  function RhMean(d: WeatherDraw, season: nat -> Wave, day: nat): real
  {
    Clip(70.0 - (TempMax(d, season, day) - 25.0) * 2.0 + d.rhNoise(day), 40.0, 90.0)
  }

  function SolarRadiation(d: WeatherDraw, season: nat -> Wave, day: nat): real
  {
    Clip(20.0 + 5.0 * season(day) + d.solarNoise(day), 10.0, 30.0)
  }

  function WindSpeed(d: WeatherDraw, day: nat): real
  {
    Clip(5.0 + d.wind(day), 2.0, 15.0)
  }

  /** Every series stays in its range. Precipitation is the sample itself up
      to 20 and 0 beyond; wind is never below 5, since an exponential sample
      is never negative, so its lower clip at 2 never bites. */
  lemma WeatherRanges(d: WeatherDraw, season: nat -> Wave, day: nat)
    ensures 0.0 <= Precipitation(d, day) <= 20.0
    ensures Precipitation(d, day) == d.precipitation(day) <==> d.precipitation(day) <= 20.0
    ensures 40.0 <= RhMean(d, season, day) <= 90.0
    ensures 10.0 <= SolarRadiation(d, season, day) <= 30.0
    ensures 5.0 <= WindSpeed(d, day) <= 15.0
  {
  }

  /** `precip[precip > limit] = 0`. */
  method ZeroAbove(a: array<real>, limit: real)
    modifies a
    ensures forall k :: 0 <= k < a.Length ==> a[k] == if old(a[k]) > limit then 0.0 else old(a[k])
  {
    for k := 0 to a.Length
      invariant forall j :: 0 <= j < a.Length ==> a[j] == if j < k && old(a[j]) > limit then 0.0 else old(a[j])
    {
      if a[k] > limit {
        a[k] := 0.0;
      }
    }
  }

  /** `generate_weather_data(n_days)`: one row per day. */
  method GenerateWeatherData(nDays: nat, d: WeatherDraw, season: nat -> Wave) returns (w: Weather)
    ensures fresh(w.tempMax) && fresh(w.tempMin) && fresh(w.precipitation) && fresh(w.rhMean) && fresh(w.solarRadiation) && fresh(w.windSpeed)
    ensures w.tempMax.Length == w.tempMin.Length == w.precipitation.Length == nDays
    ensures w.rhMean.Length == w.solarRadiation.Length == w.windSpeed.Length == nDays
    ensures forall day :: 0 <= day < nDays ==>
              w.tempMax[day] == TempMax(d, season, day) && w.tempMin[day] == TempMin(d, season, day) &&
              w.precipitation[day] == Precipitation(d, day) && w.rhMean[day] == RhMean(d, season, day) &&
              w.solarRadiation[day] == SolarRadiation(d, season, day) && w.windSpeed[day] == WindSpeed(d, day)
  {
    var tempMax := new real[nDays](day => TempMax(d, season, day));
    var tempMin := new real[nDays](day => TempMin(d, season, day));
    var precipitation := new real[nDays](day => d.precipitation(day) as real);
    ZeroAbove(precipitation, 20.0);
    var rhMean := new real[nDays](day => RhMean(d, season, day));
    var solar := new real[nDays](day => SolarRadiation(d, season, day));
    var wind := new real[nDays](day => WindSpeed(d, day));
    w := Weather(tempMax, tempMin, precipitation, rhMean, solar, wind);
  }
}
