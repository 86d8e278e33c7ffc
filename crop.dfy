/**
 * The "cover" crop that the capture screen draws from the camera frame into
 * each output canvas: the largest centred source rectangle with the canvas's
 * aspect ratio, shrunk around the frame's centre by a zoom factor in [1, 3].
 * Only the rectangle is modelled; the pixel copy itself is the browser's.
 */
module Crop {
  import opened Wrappers

  /** Math.max(lo, Math.min(hi, n)). */
  function Clamp(n: real, lo: real, hi: real): (r: real)
    ensures lo <= hi ==> lo <= r <= hi
    ensures lo <= n <= hi ==> r == n
    ensures n < lo ==> r == lo
    ensures lo <= hi < n ==> r == hi
  {
    var m := if hi < n then hi else n;
    if lo < m then m else lo
  }

  /** A source rectangle: top-left corner (x, y), width w and height h. */
  datatype Rect = Rect(x: real, y: real, w: real, h: real)

  const MinZoom: real := 1.0
  const MaxZoom: real := 3.0

  /**
   * The unzoomed cover crop size for a vw x vh frame and a cw x ch canvas:
   * full frame height when the frame is wider than the canvas, full frame
   * width otherwise.
   */
  function BaseCrop(vw: real, vh: real, cw: real, ch: real): (wh: (real, real))
    requires vw > 0.0 && vh > 0.0 && cw > 0.0 && ch > 0.0
    ensures wh.0 == vw || wh.1 == vh
  {
    var canvasAspect := cw / ch;
    var videoAspect := vw / vh;
    if videoAspect > canvasAspect then (vh * canvasAspect, vh) else (vw, vw / canvasAspect)
  }

  /**
   * The rectangle drawCroppedCover copies from a vw x vh video frame into a
   * cw x ch canvas at the requested zoom, or None when the frame has no
   * size yet (nothing is drawn).
   */
  function CoverCrop(vw: nat, vh: nat, cw: nat, ch: nat, zoom: real): (r: Option<Rect>)
    requires cw > 0 && ch > 0
    ensures r.None? <==> vw == 0 || vh == 0
  {
    if vw == 0 || vh == 0 then None
    else
      var base := BaseCrop(vw as real, vh as real, cw as real, ch as real);
      var z := Clamp(zoom, MinZoom, MaxZoom);
      var zw := base.0 / z;
      var zh := base.1 / z;
      Some(Rect((vw as real - zw) / 2.0, (vh as real - zh) / 2.0, zw, zh))
  }

  /** Comparing two quotients with positive denominators by cross-multiplying. */
  lemma QuotientLess(a: real, b: real, c: real, d: real)
    requires b > 0.0 && d > 0.0
    ensures a / b < c / d <==> a * d < c * b
  {
    var p, q := a / b, c / d;
    assert p * b == a && q * d == c;
    assert a * d == p * (b * d) && c * b == q * (b * d);
    assert (q - p) * (b * d) == c * b - a * d;
  }

  /** Dividing out a positive factor keeps a comparison. */
  lemma ScaledLessEq(a: real, b: real, c: real)
    requires c > 0.0 && a * c <= b * c
    ensures a <= b
  {
    assert (b - a) * c >= 0.0;
  }

  /** Shrinking a length by a factor z >= 1 keeps it positive and no longer. */
  lemma ShrinkBy(len: real, z: real)
    requires len > 0.0 && z >= 1.0
    ensures 0.0 < len / z <= len && (len / z) * z == len
  {
    var s := len / z;
    assert s * z == len;
    assert len - s == s * (z - 1.0);
  }

  /**
   * A length w no longer than the extent v, placed at (v - w) / 2, lies
   * inside [0, v] and has its midpoint at v / 2.
   */
  lemma CentredInside(v: real, w: real)
    requires 0.0 < w <= v
    ensures 0.0 <= (v - w) / 2.0 && (v - w) / 2.0 + w <= v
    ensures (v - w) / 2.0 + w / 2.0 == v / 2.0
  {
  }

  /**
   * The base crop has exactly the canvas's aspect ratio, spans the whole
   * frame height when the frame is wider than the canvas and the whole
   * frame width otherwise, and so lies inside the frame.
   */
  lemma BaseCropShape(vw: real, vh: real, cw: real, ch: real)
    requires vw > 0.0 && vh > 0.0 && cw > 0.0 && ch > 0.0
    ensures var wh := BaseCrop(vw, vh, cw, ch);
      && wh.0 * ch == wh.1 * cw
      && (vw * ch > cw * vh ==> wh.1 == vh && wh.0 < vw)
      && (vw * ch <= cw * vh ==> wh.0 == vw && wh.1 <= vh)
      && 0.0 < wh.0 <= vw && 0.0 < wh.1 <= vh
  {
    QuotientLess(cw, ch, vw, vh);
    if vw * ch > cw * vh {
      WiderFrameCrop(vw, vh, cw, ch);
    } else {
      TallerFrameCrop(vw, vh, cw, ch);
    }
  }

  /** A frame wider than the canvas keeps its full height and loses width. */
  lemma WiderFrameCrop(vw: real, vh: real, cw: real, ch: real)
    requires vw > 0.0 && vh > 0.0 && cw > 0.0 && ch > 0.0 && vw * ch > cw * vh
    ensures var w := vh * (cw / ch);
      0.0 < w < vw && w * ch == vh * cw
  {
    var canvasAspect := cw / ch;
    assert canvasAspect * ch == cw;
    var w := vh * canvasAspect;
    assert w * ch == vh * cw;
    assert w * ch < vw * ch;
    ScaledLess(w, vw, ch);
  }

  /** A frame no wider than the canvas keeps its full width and loses height. */
  lemma TallerFrameCrop(vw: real, vh: real, cw: real, ch: real)
    requires vw > 0.0 && vh > 0.0 && cw > 0.0 && ch > 0.0 && vw * ch <= cw * vh
    ensures var h := vw / (cw / ch);
      0.0 < h <= vh && vw * ch == h * cw
  {
    var canvasAspect := cw / ch;
    assert canvasAspect * ch == cw;
    var h := vw / canvasAspect;
    assert h * canvasAspect == vw;
    assert h * cw == vw * ch by {
      assert h * cw == h * (canvasAspect * ch);
    }
    assert h * cw <= vh * cw;
    ScaledLessEq(h, vh, cw);
  }

  /** Dividing out a positive factor keeps a strict comparison. */
  lemma ScaledLess(a: real, b: real, c: real)
    requires c > 0.0 && a * c < b * c
    ensures a < b
  {
    assert (b - a) * c > 0.0;
  }

  /** Dividing both sides of a crop by the same zoom keeps its aspect ratio. */
  lemma ShrinkKeepsAspect(bw: real, bh: real, cw: real, ch: real, z: real)
    requires z > 0.0 && bw * ch == bh * cw
    ensures (bw / z) * ch == (bh / z) * cw
  {
    var w, h := bw / z, bh / z;
    assert w * z == bw && h * z == bh;
    assert (w * ch) * z == (h * cw) * z;
  }

  /**
   * r is the base crop bw x bh of a V x H frame shrunk by z and centred:
   * inside the frame, centred on the frame's centre, with the canvas's
   * CW : CH aspect ratio, and the base crop divided by z.
   */
  ghost predicate ZoomedCentredCrop(r: Rect, V: real, H: real, CW: real, CH: real, bw: real, bh: real, z: real)
  {
    && 0.0 <= r.x && r.x + r.w <= V && 0.0 <= r.y && r.y + r.h <= H
    && r.x + r.w / 2.0 == V / 2.0 && r.y + r.h / 2.0 == H / 2.0
    && r.w * CH == r.h * CW
    && r.w * z == bw && r.h * z == bh
    && 0.0 < r.w <= bw && 0.0 < r.h <= bh
  }

  lemma ZoomedInside(V: real, H: real, CW: real, CH: real, bw: real, bh: real, z: real, r: Rect)
    requires 0.0 < bw <= V && 0.0 < bh <= H && CW > 0.0 && CH > 0.0
    requires bw * CH == bh * CW && z >= 1.0
    requires r == Rect((V - bw / z) / 2.0, (H - bh / z) / 2.0, bw / z, bh / z)
    ensures ZoomedCentredCrop(r, V, H, CW, CH, bw, bh, z)
  {
    ShrinkBy(bw, z);
    ShrinkBy(bh, z);
    ShrinkKeepsAspect(bw, bh, CW, CH, z);
    CentredInside(V, bw / z);
    CentredInside(H, bh / z);
  }

  /**
   * Whenever the frame has a size, the zoomed crop lies inside the frame,
   * keeps the canvas's aspect ratio, is centred on the frame's centre and is
   * the base crop divided by the zoom clamped to [1, 3].
   */
  lemma CoverCropInsideFrame(vw: nat, vh: nat, cw: nat, ch: nat, zoom: real)
    requires cw > 0 && ch > 0 && vw > 0 && vh > 0
    ensures ZoomedCentredCrop(CoverCrop(vw, vh, cw, ch, zoom).value,
      vw as real, vh as real, cw as real, ch as real,
      BaseCrop(vw as real, vh as real, cw as real, ch as real).0,
      BaseCrop(vw as real, vh as real, cw as real, ch as real).1,
      Clamp(zoom, MinZoom, MaxZoom))
  {
    var V, H, CW, CH := vw as real, vh as real, cw as real, ch as real;
    var base := BaseCrop(V, H, CW, CH);
    BaseCropShape(V, H, CW, CH);
    var z := Clamp(zoom, MinZoom, MaxZoom);
    CoverCropUnfold(vw, vh, cw, ch, zoom);
    ZoomedInside(V, H, CW, CH, base.0, base.1, z, CoverCrop(vw, vh, cw, ch, zoom).value);
  }

  /** The drawn rectangle spelled out in terms of the base crop and the clamped zoom. */
  lemma CoverCropUnfold(vw: nat, vh: nat, cw: nat, ch: nat, zoom: real)
    requires cw > 0 && ch > 0 && vw > 0 && vh > 0
    ensures var base := BaseCrop(vw as real, vh as real, cw as real, ch as real);
      var z := Clamp(zoom, MinZoom, MaxZoom);
      CoverCrop(vw, vh, cw, ch, zoom)
        == Some(Rect((vw as real - base.0 / z) / 2.0, (vh as real - base.1 / z) / 2.0, base.0 / z, base.1 / z))
  {
  }

  /** With zoom 1 or less the drawn rectangle is the base crop itself, centred. */
  lemma CoverCropUnzoomed(vw: nat, vh: nat, cw: nat, ch: nat, zoom: real)
    requires cw > 0 && ch > 0 && vw > 0 && vh > 0 && zoom <= 1.0
    ensures var base := BaseCrop(vw as real, vh as real, cw as real, ch as real);
      CoverCrop(vw, vh, cw, ch, zoom)
        == Some(Rect((vw as real - base.0) / 2.0, (vh as real - base.1) / 2.0, base.0, base.1))
  {
  }

  /** The two canvases the capture screen draws into. */
  const LandscapeW: nat := 1280
  const LandscapeH: nat := 720
  const PortraitW: nat := 720
  const PortraitH: nat := 1280

  /** The landscape crop is 16:9 and the portrait crop 9:16, at every zoom. */
  lemma OutputAspects(vw: nat, vh: nat, landscapeZoom: real, portraitZoom: real)
    requires vw > 0 && vh > 0
    ensures var l := CoverCrop(vw, vh, LandscapeW, LandscapeH, landscapeZoom).value;
      l.w * 9.0 == l.h * 16.0
    ensures var p := CoverCrop(vw, vh, PortraitW, PortraitH, portraitZoom).value;
      p.w * 16.0 == p.h * 9.0
  {
    CoverCropInsideFrame(vw, vh, LandscapeW, LandscapeH, landscapeZoom);
    CoverCropInsideFrame(vw, vh, PortraitW, PortraitH, portraitZoom);
    var l := CoverCrop(vw, vh, LandscapeW, LandscapeH, landscapeZoom).value;
    assert l.w * 720.0 == l.h * 1280.0;
    var p := CoverCrop(vw, vh, PortraitW, PortraitH, portraitZoom).value;
    assert p.w * 1280.0 == p.h * 720.0;
  }
}
