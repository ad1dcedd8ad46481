/** Blanking the windows of hidden apps in a capture of a display.
  *
  * Screen coordinates are reals, pixels integers; rows come first in an image.
  */
module Redaction {
  import opened Basics
  import opened Seqs

  datatype Result<T> = Ok(value: T) | Err(message: string)

  datatype Pixel = Rgba(r: bv8, g: bv8, b: bv8, a: bv8)

  const BLACK: Pixel := Rgba(0, 0, 0, 255)

  const U32_MAX: nat := 0xFFFF_FFFF

  datatype Rect = Rect(x: real, y: real, w: real, h: real)

  /** What the window system says of a window; any part of it can be unknown. */
  datatype Window = Window(
    pid: Option<nat>,
    minimized: Option<bool>,
    x: Option<int>,
    y: Option<int>,
    w: Option<nat>,
    h: Option<nat>)

  function Max(a: real, b: real): real {
    if a < b then b else a
  }

  /** Negative values count as zero, halves round up, and the result saturates. */
  function ToU32(v: real): nat {
    Min((Max(v, 0.0) + 0.5).Floor, U32_MAX)
  }

  predicate Hidden(w: Window, pids: seq<nat>) {
    w.pid.Some? && w.pid.value in pids && !(w.minimized.Some? && w.minimized.value)
  }

  predicate Placed(w: Window) {
    w.x.Some? && w.y.Some? && w.w.Some? && w.h.Some?
  }

  function Centre(p: int): real {
    p as real + 0.5
  }

  /** A screen coordinate in the pixels of an image `pixels` wide of `[from, from + size]`. */
  function Mapped(v: real, from: real, size: real, pixels: int): real
    requires size > 0.0
  {
    (v - from) * (pixels as real / size)
  }

  /** Whether the centre of a pixel lies in the mapped window, its left and top
    * edges excluded and its right and bottom edges included. */
  predicate Covers(w: Window, area: Rect, width: int, height: int, py: int, px: int)
    requires Placed(w) && area.w > 0.0 && area.h > 0.0
  {
    var x, y := w.x.value as real, w.y.value as real;
    && Mapped(x, area.x, area.w, width) < Centre(px) <= Mapped(x + w.w.value as real, area.x, area.w, width)
    && Mapped(y, area.y, area.h, height) < Centre(py) <= Mapped(y + w.h.value as real, area.y, area.h, height)
  }

  /** The pixels between two rounded edges are those whose centre lies between the
    * edges themselves. */
  lemma RoundingIsByCentre(low: real, high: real, pixels: nat, p: nat)
    requires p < pixels <= U32_MAX
    ensures Min(ToU32(low), pixels) <= p < Min(ToU32(high), pixels) <==> low < Centre(p) <= high
  {
    RoundedAtMost(low, p);
    RoundedAtMost(high, p);
  }

  lemma RoundedAtMost(v: real, p: nat)
    requires p < U32_MAX
    ensures ToU32(v) <= p <==> v < Centre(p)
  {
    var r := Max(v, 0.0) + 0.5;
    assert r.Floor as real <= r < r.Floor as real + 1.0;
    if r.Floor <= p {
      assert r.Floor as real <= p as real;
    } else {
      assert r.Floor >= p + 1;
      assert r.Floor as real >= (p + 1) as real;
    }
  }

  ghost predicate CoveredByFirst(windows: seq<Window>, n: nat, pids: seq<nat>, area: Rect, width: int, height: int,
                                 py: int, px: int)
    requires n <= |windows| && area.w > 0.0 && area.h > 0.0
  {
    exists i :: 0 <= i < n && Hidden(windows[i], pids) && Placed(windows[i]) && Covers(windows[i], area, width, height, py, px)
  }

  lemma CoveredByNext(windows: seq<Window>, n: nat, pids: seq<nat>, area: Rect, width: int, height: int, py: int, px: int)
    requires n < |windows| && area.w > 0.0 && area.h > 0.0
    ensures CoveredByFirst(windows, n + 1, pids, area, width, height, py, px)
       <==> CoveredByFirst(windows, n, pids, area, width, height, py, px)
            || (Hidden(windows[n], pids) && Placed(windows[n]) && Covers(windows[n], area, width, height, py, px))
  {
    hide Covers, Hidden, Placed;
  }

  ghost predicate Unplaceable(windows: seq<Window>, n: nat, pids: seq<nat>)
    requires n <= |windows|
  {
    exists i :: 0 <= i < n && Hidden(windows[i], pids) && !Placed(windows[i])
  }

  predicate InRange(v: int, low: int, high: int) {
    low <= v < high
  }

  /** Paints the block of rows `top..bottom` and columns `left..right`. */
  method Blank(image: array2<Pixel>, left: nat, top: nat, right: nat, bottom: nat)
    requires left <= image.Length1 && right <= image.Length1 && top <= image.Length0 && bottom <= image.Length0
    modifies image
    ensures forall py, px :: 0 <= py < image.Length0 && 0 <= px < image.Length1 ==>
      image[py, px] == if InRange(py, top, bottom) && InRange(px, left, right) then BLACK else old(image[py, px])
  {
    var y := top;
    while y < bottom
      invariant top <= y && (y <= bottom || y == top)
      invariant forall py, px :: 0 <= py < image.Length0 && 0 <= px < image.Length1 ==>
        image[py, px] == if InRange(py, top, Min(y, bottom)) && InRange(px, left, right) then BLACK else old(image[py, px])
    {
      var x := left;
      while x < right
        invariant left <= x && (x <= right || x == left)
        invariant forall py, px :: 0 <= py < image.Length0 && 0 <= px < image.Length1 ==>
          image[py, px] ==
            if InRange(px, left, right) && (InRange(py, top, y) || (py == y && px < x)) then BLACK else old(image[py, px])
      {
        image[y, x] := BLACK;
        x := x + 1;
      }
      y := y + 1;
    }
  }

  /** Whether there is anything to hide, and somewhere to hide it. */
  predicate Applies(area: Rect, pids: seq<nat>) {
    pids != [] && area.w > 0.0 && area.h > 0.0
  }

  /** Paints over one window. */
  method BlankWindow(image: array2<Pixel>, area: Rect, w: Window)
    requires area.w > 0.0 && area.h > 0.0 && Placed(w) && image.Length0 <= U32_MAX && image.Length1 <= U32_MAX
    modifies image
    ensures forall py, px :: 0 <= py < image.Length0 && 0 <= px < image.Length1 ==>
      image[py, px] == if Covers(w, area, image.Length1, image.Length0, py, px) then BLACK else old(image[py, px])
  {
    var width, height := image.Length1, image.Length0;
    var x, y := w.x.value as real, w.y.value as real;
    var leftEdge := Mapped(x, area.x, area.w, width);
    var topEdge := Mapped(y, area.y, area.h, height);
    var rightEdge := Mapped(x + w.w.value as real, area.x, area.w, width);
    var bottomEdge := Mapped(y + w.h.value as real, area.y, area.h, height);
    var left := Min(ToU32(leftEdge), width);
    var top := Min(ToU32(topEdge), height);
    var right := Min(ToU32(rightEdge), width);
    var bottom := Min(ToU32(bottomEdge), height);
    label before:
    Blank(image, left, top, right, bottom);
    hide ToU32, Mapped, Centre;
    forall py, px | 0 <= py < height && 0 <= px < width
      ensures image[py, px] == if Covers(w, area, width, height, py, px) then BLACK else old@before(image[py, px])
    {
      RoundingIsByCentre(leftEdge, rightEdge, width, px);
      RoundingIsByCentre(topEdge, bottomEdge, height, py);
    }
  }

  /** When it succeeds, a pixel is black if its centre is covered by a hidden window
    * that is not minimized, and untouched otherwise. It fails exactly when the
    * windows, or the place of a window to hide, cannot be found out. */
  method Redact(image: array2<Pixel>, area: Rect, pids: seq<nat>, windows: Option<seq<Window>>) returns (r: Result<()>)
    requires image.Length0 <= U32_MAX && image.Length1 <= U32_MAX
    modifies image
    ensures r.Err? <==> Applies(area, pids) && (windows.None? || Unplaceable(windows.value, |windows.value|, pids))
    ensures r.Ok? && !Applies(area, pids) ==>
      forall py, px :: 0 <= py < image.Length0 && 0 <= px < image.Length1 ==> image[py, px] == old(image[py, px])
    ensures r.Ok? && Applies(area, pids) ==>
      forall py, px :: 0 <= py < image.Length0 && 0 <= px < image.Length1 ==>
        image[py, px] ==
          if CoveredByFirst(windows.value, |windows.value|, pids, area, image.Length1, image.Length0, py, px) then BLACK
          else old(image[py, px])
  {
    if pids == [] || area.w <= 0.0 || area.h <= 0.0 {
      return Ok(());
    }
    if windows.None? {
      return Err("capture failed");
    }
    var all := windows.value;
    hide Covers;
    for i := 0 to |all|
      invariant !Unplaceable(all, i, pids)
      invariant forall py, px :: 0 <= py < image.Length0 && 0 <= px < image.Length1 ==>
        image[py, px] ==
          if CoveredByFirst(all, i, pids, area, image.Length1, image.Length0, py, px) then BLACK else old(image[py, px])
    {
      forall py, px | 0 <= py < image.Length0 && 0 <= px < image.Length1
        ensures CoveredByFirst(all, i + 1, pids, area, image.Length1, image.Length0, py, px)
           <==> CoveredByFirst(all, i, pids, area, image.Length1, image.Length0, py, px)
                || (Hidden(all[i], pids) && Placed(all[i]) && Covers(all[i], area, image.Length1, image.Length0, py, px))
      {
        CoveredByNext(all, i, pids, area, image.Length1, image.Length0, py, px);
      }
      if Hidden(all[i], pids) {
        if !Placed(all[i]) {
          return Err("capture failed: a protected window's frame is unknown");
        }
        BlankWindow(image, area, all[i]);
      }
    }
    return Ok(());
  }

  // ----- a region of a display -----

  datatype Block = Block(x: nat, y: nat, w: nat, h: nat)

  /** The part of a `width` by `height` image that a region takes. */
  function CropOf(region: Rect, display: Rect, scale: real, width: nat, height: nat): Block {
    var x := ToU32((region.x - display.x) * scale);
    var y := ToU32((region.y - display.y) * scale);
    Block(x, y, Min(ToU32(region.w * scale), SaturatingSub(width, x)), Min(ToU32(region.h * scale), SaturatingSub(height, y)))
  }

  function SaturatingSub(a: nat, b: nat): nat {
    if a < b then 0 else a - b
  }

  /** Redacts the display's image and cuts the region out of it, so that no pixel
    * handed on shows a window that was to be hidden. */
  method GrabRegion(image: array2<Pixel>, region: Rect, display: Rect, scale: real, pids: seq<nat>,
                    windows: Option<seq<Window>>)
    returns (r: Result<array2<Pixel>>)
    requires image.Length0 <= U32_MAX && image.Length1 <= U32_MAX
    modifies image
    ensures var c := CropOf(region, display, scale, image.Length1, image.Length0);
      r.Err? <==>
        || (Applies(display, pids) && (windows.None? || Unplaceable(windows.value, |windows.value|, pids)))
        || c.w == 0 || c.h == 0
    ensures var c := CropOf(region, display, scale, image.Length1, image.Length0);
      r.Ok? ==>
        && r.value.Length0 == c.h > 0 && r.value.Length1 == c.w > 0
        && c.y + c.h <= image.Length0 && c.x + c.w <= image.Length1
        && (Applies(display, pids) ==> windows.Some?)
        && forall py, px :: 0 <= py < c.h && 0 <= px < c.w ==>
          r.value[py, px] ==
            if Applies(display, pids)
               && CoveredByFirst(windows.value, |windows.value|, pids, display, image.Length1, image.Length0, c.y + py, c.x + px)
            then BLACK else old(image[c.y + py, c.x + px])
  {
    hide CoveredByFirst, Unplaceable;
    var redacted := Redact(image, display, pids, windows);
    if redacted.Err? {
      return Err(redacted.message);
    }
    var c := CropOf(region, display, scale, image.Length1, image.Length0);
    if c.w == 0 || c.h == 0 {
      return Err("the region is outside its display");
    }
    CropIsInside(region, display, scale, image.Length1, image.Length0);
    var cropped := new Pixel[c.h, c.w]((py, px)
      requires 0 <= c.y + py < image.Length0 && 0 <= c.x + px < image.Length1 reads image => image[c.y + py, c.x + px]);
    return Ok(cropped);
  }

  lemma CropIsInside(region: Rect, display: Rect, scale: real, width: nat, height: nat)
    ensures var c := CropOf(region, display, scale, width, height);
      && (c.w > 0 ==> c.x + c.w <= width) && (c.h > 0 ==> c.y + c.h <= height)
  {
  }
}
