/**
 * Orientation classification of a probed video (src/api/assets.ts).
 *
 * The source computes with IEEE doubles; here the ratio is an exact real, so the
 * comparisons with 16/9 and 9/16 are exact as well.
 */
module Assets {
  import opened Wrappers

  /** The three values of the source's `VideoAspectRatio` union. */
  datatype AspectRatio = Landscape | Portrait | Other

  /** The text of each value, used as the storage-key prefix. */
  function Name(a: AspectRatio): (s: string)
    ensures |s| > 0 && forall j :: 0 <= j < |s| ==> s[j] != '/'
  {
    match a
    case Landscape => "landscape"
    case Portrait => "portrait"
    case Other => "other"
  }

  function Abs(x: real): (r: real)
    ensures r >= 0.0 && (r == x || r == -x)
  {
    if x < 0.0 then -x else x
  }

  /** The tolerance band around a target ratio p / q, as the source tests it. */
  predicate Near(ratio: real, p: real, q: real)
    requires q != 0.0
  {
    Abs(ratio - p / q) < 0.1
  }

  /**
   * calculateAspectRatio: landscape near 16/9, else portrait near 9/16, else other.
   * A zero height yields other: in the source the division gives an infinity or NaN,
   * and both comparisons with it are false.
   */
  function CalculateAspectRatio(width: real, height: real): (r: AspectRatio)
    ensures height == 0.0 ==> r == Other
    ensures height != 0.0 ==>
      (r == Landscape <==> 10.0 * Abs(9.0 * width - 16.0 * height) < 9.0 * Abs(height))
    ensures height != 0.0 ==>
      (r == Portrait <==>
        !(10.0 * Abs(9.0 * width - 16.0 * height) < 9.0 * Abs(height)) &&
        10.0 * Abs(16.0 * width - 9.0 * height) < 16.0 * Abs(height))
  {
    if height == 0.0 then Other
    else
      var ratio := width / height;
      BandIff(width, height, 16.0, 9.0);
      BandIff(width, height, 9.0, 16.0);
      if Near(ratio, 16.0, 9.0) then Landscape
      else if Near(ratio, 9.0, 16.0) then Portrait
      else Other
  }

  lemma AbsMul(a: real, b: real)
    ensures Abs(a * b) == Abs(a) * Abs(b)
  {
    if a < 0.0 {
      if b < 0.0 { assert a * b == (-a) * (-b); } else { assert -(a * b) == (-a) * b; }
    } else {
      if b < 0.0 { assert -(a * b) == a * (-b); }
    }
  }

  lemma ScaleLess(x: real, y: real, k: real)
    requires k > 0.0
    ensures x < y <==> x * k < y * k
  {
    if x < y { assert (y - x) * k > 0.0; }
    if x * k < y * k { assert (y - x) * k > 0.0; }
  }

  /**
   * The band test without division: for a non-zero height,
   * |w/h - p/q| < 1/10 exactly when 10 * |q*w - p*h| < q * |h|.
   */
  lemma BandIff(w: real, h: real, p: real, q: real)
    requires h != 0.0 && q > 0.0
    ensures Near(w / h, p, q) <==> 10.0 * Abs(q * w - p * h) < q * Abs(h)
  {
    var d := w / h - p / q;
    assert w == (w / h) * h;
    assert q * w - p * h == (q * h) * d by {
      calc {
        (q * h) * d;
        q * h * (w / h) - q * h * (p / q);
        q * ((w / h) * h) - h * (q * (p / q));
        q * w - h * p;
      }
    }
    AbsMul(q * h, d);
    AbsMul(q, h);
    var k := q * Abs(h);
    assert k > 0.0 by { assert Abs(h) > 0.0; }
    assert Abs(q * w - p * h) == k * Abs(d);
    RescaledBand(Abs(q * w - p * h), Abs(d), k);
  }

  /** A = D * k with k > 0: the band 10 * D < 1 scales to 10 * A < k. */
  lemma RescaledBand(a: real, dist: real, k: real)
    requires k > 0.0 && a == k * dist
    ensures 10.0 * a < k <==> dist < 0.1
  {
    ScaleLess(10.0 * dist, 1.0, k);
    assert 10.0 * a == (10.0 * dist) * k;
  }

  /** The two bands cannot overlap: 16/9 and 9/16 are more than 0.2 apart. */
  lemma BandsDisjoint(ratio: real)
    ensures !(Near(ratio, 16.0, 9.0) && Near(ratio, 9.0, 16.0))
  {
  }

  /** The same classification with the two tests in the opposite order. */
  function PortraitFirst(width: real, height: real): AspectRatio {
    if height == 0.0 then Other
    else
      var ratio := width / height;
      if Near(ratio, 9.0, 16.0) then Portrait
      else if Near(ratio, 16.0, 9.0) then Landscape
      else Other
  }

  /** Because the bands are disjoint, the order of the two tests does not matter. */
  lemma BranchOrderIrrelevant(width: real, height: real)
    ensures CalculateAspectRatio(width, height) == PortraitFirst(width, height)
  {
    if height != 0.0 {
      BandsDisjoint(width / height);
    }
  }

  /** What the external probe reports: its diagnostic text and the first stream's geometry. */
  datatype ProbeOutput = ProbeOutput(stderr: string, width: Option<int>, height: Option<int>)

  /** `!width` in the source: absent, or the number zero. */
  predicate Missing(d: Option<int>) {
    d.None? || d.value == 0
  }

  /**
   * The decision getVideoAspectRatio takes once the probe has finished: any
   * diagnostic output is an error; a missing or zero dimension is `other`;
   * otherwise the geometry is classified.
   */
  function ProbeDecision(p: ProbeOutput): (r: Result<AspectRatio, string>)
    ensures r.Err? <==> p.stderr != []
    ensures r.Err? ==> r.error == "Error getting video aspect ratio: " + p.stderr
    ensures p.stderr == [] && (Missing(p.width) || Missing(p.height)) ==> r == Ok(Other)
  {
    if p.stderr != [] then Err("Error getting video aspect ratio: " + p.stderr)
    else if Missing(p.width) || Missing(p.height) then Ok(Other)
    else Ok(CalculateAspectRatio(p.width.value as real, p.height.value as real))
  }

  /**
   * The probe decision in integer arithmetic only: landscape when
   * 10 * |9w - 16h| < 9 * |h|, else portrait when 10 * |16w - 9h| < 16 * |h|.
   */
  lemma ProbeDecisionCrossMultiplied(p: ProbeOutput)
    ensures ProbeDecision(p) == Ok(Landscape) <==>
      p.stderr == [] && !Missing(p.width) && !Missing(p.height) &&
      10 * IntAbs(9 * p.width.value - 16 * p.height.value) < 9 * IntAbs(p.height.value)
    ensures ProbeDecision(p) == Ok(Portrait) <==>
      p.stderr == [] && !Missing(p.width) && !Missing(p.height) &&
      !(10 * IntAbs(9 * p.width.value - 16 * p.height.value) < 9 * IntAbs(p.height.value)) &&
      10 * IntAbs(16 * p.width.value - 9 * p.height.value) < 16 * IntAbs(p.height.value)
  {
    if p.stderr == [] && !Missing(p.width) && !Missing(p.height) {
      var w, h := p.width.value, p.height.value;
      IntAbsAsReal(9 * w - 16 * h);
      IntAbsAsReal(16 * w - 9 * h);
      IntAbsAsReal(h);
    }
  }

  function IntAbs(x: int): (r: nat)
    ensures r == x || r == -x
  {
    if x < 0 then -x else x
  }

  lemma IntAbsAsReal(x: int)
    ensures IntAbs(x) as real == Abs(x as real)
  {
  }

  /** The worked cases: full-HD landscape, its portrait rotation, and a near-square frame. */
  lemma WorkedExamples()
    ensures ProbeDecision(ProbeOutput("", Some(1920), Some(1080))) == Ok(Landscape)
    ensures ProbeDecision(ProbeOutput("", Some(1080), Some(1920))) == Ok(Portrait)
    ensures ProbeDecision(ProbeOutput("", Some(1000), Some(999))) == Ok(Other)
  {
  }
}
