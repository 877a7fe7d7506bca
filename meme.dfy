/**
 * Caption layout and outline drawing of logicfeed's meme generator.
 *
 * The text-measuring call of the imaging library is the parameter
 * `measure` and the greedy line breaker is the parameter `wrap`; both are
 * left uninterpreted. Drawing is recorded as a sequence of draw commands
 * on a `Canvas` instead of as pixels.
 */
module Meme {
  import opened Wrappers

  /** Extent of a rendered string, in pixels. */
  datatype Size = Size(width: nat, height: nat)

  /** Origin of a drawn string: `x` comes from a true division, `y` is integral. */
  datatype Position = Position(x: real, y: int)

  /** A wrapped line together with its origin. */
  datatype Text = Text(text: string, position: Position)

  /** Why a caption cannot be laid out. */
  datatype LayoutError =
    | ZeroWidth  // the unwrapped message measures 0 pixels wide: the division by it fails
    | TooSmall   // some line would start left of or above the image

  /** The geometry that `get_texts` receives besides the message. */
  datatype LayoutParams = LayoutParams(
    spacing: int,
    borderSize: int,
    imageWidth: nat,
    imageHeight: nat,
    marginBottom: int)

  // ---------------------------------------------------------------------
  // Wrap width in characters
  // ---------------------------------------------------------------------

  /**
   * `int(len(message) / width * wrap_width)` in exact arithmetic: the
   * quotient `len * wrapWidth / width` truncated toward zero, as Python's
   * `int` does.
   */
  function WrapWidthChars(messageLength: nat, measuredWidth: nat, wrapWidth: int): (r: int)
    requires measuredWidth > 0
    ensures 0 <= messageLength * wrapWidth ==>
              0 <= r && r * measuredWidth <= messageLength * wrapWidth < (r + 1) * measuredWidth
    ensures messageLength * wrapWidth < 0 ==>
              r <= 0 && (r - 1) * measuredWidth < messageLength * wrapWidth <= r * measuredWidth
  {
    var n := messageLength * wrapWidth;
    if n >= 0 then
      FloorBounds(n, measuredWidth);
      n / measuredWidth
    else
      FloorBounds(-n, measuredWidth);
      -((-n) / measuredWidth)
  }

  /** Dafny's `/` on a non-negative dividend and a positive divisor is the floor. */
  lemma FloorBounds(n: nat, d: nat)
    requires d > 0
    ensures 0 <= n / d && (n / d) * d <= n < (n / d + 1) * d
  {
    assert n == d * (n / d) + n % d;
    assert (n / d + 1) * d == (n / d) * d + d;
  }

  /** The lines `wrap` produces for the message at the derived character width. */
  function WrappedLines(measure: string -> Size, wrap: (string, int) -> seq<string>,
                        message: string, wrapWidth: int): seq<string>
    requires measure(message).width > 0
  {
    wrap(message, WrapWidthChars(|message|, measure(message).width, wrapWidth))
  }

  // ---------------------------------------------------------------------
  // Closed-form layout
  // ---------------------------------------------------------------------

  /** Each line measured on its own. */
  function Sizes(measure: string -> Size, lines: seq<string>): seq<Size>
  {
    seq(|lines|, i requires 0 <= i < |lines| => measure(lines[i]))
  }

  /** Sum of the heights of `sizes`. */
  function HeightSum(sizes: seq<Size>): nat
  {
    if sizes == [] then 0 else HeightSum(sizes[..|sizes| - 1]) + sizes[|sizes| - 1].height
  }

  /** Height of the text block: all line heights plus the gaps between lines. */
  function TextHeight(sizes: seq<Size>, spacing: int): int
  {
    HeightSum(sizes) + spacing * (|sizes| - 1)
  }

  /** Vertical origin of the first line. */
  function TopY(sizes: seq<Size>, p: LayoutParams): int
  {
    p.imageHeight - p.marginBottom - TextHeight(sizes, p.spacing) - p.borderSize
  }

  /** How far below the top line the line after `sizes` starts: each line's height plus the spacing. */
  function Advance(sizes: seq<Size>, spacing: int): int
  {
    if sizes == [] then 0
    else Advance(sizes[..|sizes| - 1], spacing) + sizes[|sizes| - 1].height + spacing
  }

  /** Vertical origin of line `i`: the top plus everything stacked above it. */
  function LineY(sizes: seq<Size>, p: LayoutParams, i: nat): int
    requires i <= |sizes|
  {
    TopY(sizes, p) + Advance(sizes[..i], p.spacing)
  }

  /** Horizontal origin of a line of the given size, centred in the image. */
  function LineX(size: Size, p: LayoutParams): real
  {
    (p.imageWidth - size.width) as real / 2.0
  }

  /** Line `i` starts inside the image. */
  predicate Fits(sizes: seq<Size>, p: LayoutParams, i: nat)
    requires i < |sizes|
  {
    LineX(sizes[i], p) >= 0.0 && LineY(sizes, p, i) >= 0
  }

  /** Line `i` with its position. */
  function Placed(lines: seq<string>, sizes: seq<Size>, p: LayoutParams, i: nat): Text
    requires |lines| == |sizes| && i < |lines|
  {
    Text(lines[i], Position(LineX(sizes[i], p), LineY(sizes, p, i)))
  }

  /**
   * Reference layout: every line placed, or `TooSmall` when any line does
   * not fit. No partial list is ever returned.
   */
  function Layout(lines: seq<string>, sizes: seq<Size>, p: LayoutParams): Result<seq<Text>, LayoutError>
    requires |lines| == |sizes|
  {
    if forall i :: 0 <= i < |sizes| ==> Fits(sizes, p, i)
    then Ok(seq(|lines|, i requires 0 <= i < |lines| => Placed(lines, sizes, p, i)))
    else Err(TooSmall)
  }

  /** What `get_texts` computes from its inputs. */
  function Caption(measure: string -> Size, wrap: (string, int) -> seq<string>,
                   message: string, p: LayoutParams, wrapWidth: int): Result<seq<Text>, LayoutError>
  {
    if measure(message).width == 0 then Err(ZeroWidth)
    else
      var lines := WrappedLines(measure, wrap, message, wrapWidth);
      Layout(lines, Sizes(measure, lines), p)
  }

  // ---------------------------------------------------------------------
  // get_texts
  // ---------------------------------------------------------------------

  /**
   * Wraps the message, measures each line, places the block above the
   * bottom margin and border, centres each line and stacks the lines
   * downward, failing as soon as a line would start outside the image.
   */
  method GetTexts(measure: string -> Size, wrap: (string, int) -> seq<string>,
                  message: string, p: LayoutParams, wrapWidth: int)
    returns (r: Result<seq<Text>, LayoutError>)
    ensures r == Err(ZeroWidth) <==> measure(message).width == 0
    ensures measure(message).width > 0 ==>
              var lines := WrappedLines(measure, wrap, message, wrapWidth);
              r == Layout(lines, Sizes(measure, lines), p)
  {
    var width := measure(message).width;
    if width == 0 {
      return Err(ZeroWidth);
    }
    var wrapWidthChar := WrapWidthChars(|message|, width, wrapWidth);
    var lines := wrap(message, wrapWidthChar);

    var sizes := Sizes(measure, lines);
    var textHeight := TextHeight(sizes, p.spacing);
    var textY := p.imageHeight - p.marginBottom - textHeight - p.borderSize;
    assert sizes[..0] == [];

    var texts: seq<Text> := [];
    var i := 0;
    while i < |lines|
      invariant 0 <= i <= |lines|
      invariant textY == LineY(sizes, p, i)
      invariant |texts| == i
      invariant forall k :: 0 <= k < i ==> texts[k] == Placed(lines, sizes, p, k)
      invariant forall k :: 0 <= k < i ==> Fits(sizes, p, k)
    {
      var size := sizes[i];
      var x, y := LineX(size, p), textY;
      textY := textY + size.height + p.spacing;
      StackStep(sizes, p, i);
      if x < 0.0 || y < 0 {
        assert !Fits(sizes, p, i);
        return Err(TooSmall);
      }
      texts := texts + [Text(lines[i], Position(x, y))];
      i := i + 1;
    }
    assert texts == seq(|lines|, k requires 0 <= k < |lines| => Placed(lines, sizes, p, k));
    return Ok(texts);
  }

  // ---------------------------------------------------------------------
  // Properties of the layout
  // ---------------------------------------------------------------------

  /** Stacking one more line adds its height and the spacing. */
  lemma {:induction false} AdvanceStep(sizes: seq<Size>, spacing: int, i: nat)
    requires i < |sizes|
    ensures Advance(sizes[..i + 1], spacing) == Advance(sizes[..i], spacing) + sizes[i].height + spacing
  {
    assert sizes[..i + 1][..i] == sizes[..i];
  }

  /** Stacking lines advances by their total height plus one spacing per line. */
  lemma {:induction false} AdvanceTotal(sizes: seq<Size>, spacing: int)
    ensures Advance(sizes, spacing) == HeightSum(sizes) + |sizes| * spacing
  {
    if sizes != [] {
      var n := |sizes|;
      AdvanceTotal(sizes[..n - 1], spacing);
      assert (n - 1) * spacing + spacing == n * spacing;
    }
  }

  /** The next line starts one line height plus the spacing below the previous one. */
  lemma {:induction false} StackStep(sizes: seq<Size>, p: LayoutParams, i: nat)
    requires i < |sizes|
    ensures LineY(sizes, p, i + 1) == LineY(sizes, p, i) + sizes[i].height + p.spacing
  {
    AdvanceStep(sizes, p.spacing, i);
  }

  /**
   * The first line starts at the height that leaves room for the whole
   * block, whose height is the sum of the line heights plus the spacing
   * between consecutive lines.
   */
  lemma FirstLineY(sizes: seq<Size>, p: LayoutParams)
    requires |sizes| > 0
    ensures LineY(sizes, p, 0)
            == p.imageHeight - p.marginBottom - (HeightSum(sizes) + p.spacing * (|sizes| - 1)) - p.borderSize
  {
    assert sizes[..0] == [];
  }

  /** The bottom of the last line sits `marginBottom + borderSize` above the image bottom. */
  lemma {:induction false} BlockBottom(sizes: seq<Size>, p: LayoutParams)
    requires |sizes| > 0
    ensures LineY(sizes, p, |sizes| - 1) + sizes[|sizes| - 1].height
            == p.imageHeight - p.marginBottom - p.borderSize
  {
    var n := |sizes|;
    StackStep(sizes, p, n - 1);
    assert sizes[..n] == sizes;
    AdvanceTotal(sizes, p.spacing);
    assert p.spacing * (n - 1) == n * p.spacing - p.spacing;
  }

  /** With non-negative steps, lines never move up. */
  lemma {:induction false} LinesDescend(sizes: seq<Size>, p: LayoutParams, i: nat, j: nat)
    requires i <= j <= |sizes|
    requires forall k :: 0 <= k < |sizes| ==> sizes[k].height + p.spacing >= 0
    ensures LineY(sizes, p, i) <= LineY(sizes, p, j)
  {
    if i < j {
      LinesDescend(sizes, p, i, j - 1);
      StackStep(sizes, p, j - 1);
    }
  }

  /** With positive steps, later lines start strictly lower. */
  lemma {:induction false} LinesStrictlyDescend(sizes: seq<Size>, p: LayoutParams, i: nat, j: nat)
    requires i < j <= |sizes|
    requires forall k :: 0 <= k < |sizes| ==> sizes[k].height + p.spacing > 0
    ensures LineY(sizes, p, i) < LineY(sizes, p, j)
  {
    StackStep(sizes, p, j - 1);
    if i < j - 1 {
      LinesStrictlyDescend(sizes, p, i, j - 1);
    }
  }

  /** A centred line starts left of the image exactly when it is wider than the image. */
  lemma Centred(size: Size, p: LayoutParams)
    ensures 2.0 * LineX(size, p) + size.width as real == p.imageWidth as real
    ensures LineX(size, p) >= 0.0 <==> size.width <= p.imageWidth
  {
  }

  /**
   * A successful layout has one entry per line, in order, with the text
   * unchanged, every line centred, stacked from the top origin, and
   * starting inside the image.
   */
  lemma LayoutOk(lines: seq<string>, sizes: seq<Size>, p: LayoutParams)
    requires |lines| == |sizes|
    requires Layout(lines, sizes, p).Ok?
    ensures var ts := Layout(lines, sizes, p).value;
      && |ts| == |lines|
      && (forall i :: 0 <= i < |ts| ==>
            && ts[i].text == lines[i]
            && 2.0 * ts[i].position.x + sizes[i].width as real == p.imageWidth as real
            && ts[i].position.y == LineY(sizes, p, i)
            && ts[i].position.x >= 0.0
            && ts[i].position.y >= 0)
  {
    var ts := Layout(lines, sizes, p).value;
    forall i | 0 <= i < |ts|
      ensures 2.0 * ts[i].position.x + sizes[i].width as real == p.imageWidth as real
      ensures ts[i].position.x >= 0.0 && ts[i].position.y >= 0
    {
      assert Fits(sizes, p, i);
      Centred(sizes[i], p);
    }
  }

  /** The layout fails exactly when some line would start left of or above the image. */
  lemma LayoutErr(lines: seq<string>, sizes: seq<Size>, p: LayoutParams)
    requires |lines| == |sizes|
    ensures Layout(lines, sizes, p) == Err(TooSmall) <==>
              exists i :: 0 <= i < |sizes| && (sizes[i].width > p.imageWidth || LineY(sizes, p, i) < 0)
  {
    if exists i :: 0 <= i < |sizes| && (sizes[i].width > p.imageWidth || LineY(sizes, p, i) < 0) {
      var i :| 0 <= i < |sizes| && (sizes[i].width > p.imageWidth || LineY(sizes, p, i) < 0);
      Centred(sizes[i], p);
      assert !Fits(sizes, p, i);
    } else {
      forall i | 0 <= i < |sizes| ensures Fits(sizes, p, i) {
        Centred(sizes[i], p);
      }
    }
  }

  /**
   * When no line height plus spacing is negative, checking the top line is
   * enough: the caption fits exactly when no line is wider than the image
   * and the image is at least `marginBottom + text height + borderSize`
   * tall. One pixel less height is `TooSmall`.
   */
  lemma {:induction false} FitsIffTall(lines: seq<string>, sizes: seq<Size>, p: LayoutParams)
    requires |lines| == |sizes| > 0
    requires forall k :: 0 <= k < |sizes| ==> sizes[k].height + p.spacing >= 0
    ensures Layout(lines, sizes, p).Ok? <==>
              (forall i :: 0 <= i < |sizes| ==> sizes[i].width <= p.imageWidth)
              && p.imageHeight >= p.marginBottom + TextHeight(sizes, p.spacing) + p.borderSize
  {
    LayoutErr(lines, sizes, p);
    FirstLineY(sizes, p);
    forall i | 0 <= i < |sizes| ensures LineY(sizes, p, 0) <= LineY(sizes, p, i) {
      LinesDescend(sizes, p, 0, i);
    }
  }

  /** "Hello World" on a 400x200 image with a bottom margin of 30 and no border. */
  lemma HelloWorldFits()
    ensures Layout(["Hello World"], [Size(110, 24)], LayoutParams(0, 0, 400, 200, 30))
            == Ok([Text("Hello World", Position(145.0, 146))])
  {
    var lines, sizes, p := ["Hello World"], [Size(110, 24)], LayoutParams(0, 0, 400, 200, 30);
    assert sizes[..0] == [] && sizes[..|sizes| - 1] == [];
    assert LineY(sizes, p, 0) == 146;
    assert Fits(sizes, p, 0);
    assert seq(1, i requires 0 <= i < 1 => Placed(lines, sizes, p, i)) == [Placed(lines, sizes, p, 0)];
  }

  /** The same message on a 400x20 image does not fit. */
  lemma HelloWorldTooShort()
    ensures Layout(["Hello World"], [Size(110, 24)], LayoutParams(0, 0, 400, 20, 30))
            == Err(TooSmall)
  {
    var sizes := [Size(110, 24)];
    assert HeightSum(sizes) == 24 by { assert sizes[..|sizes| - 1] == []; }
    assert !Fits(sizes, LayoutParams(0, 0, 400, 20, 30), 0);
  }

  // ---------------------------------------------------------------------
  // Drawing: four outline draws and one fill draw per line
  // ---------------------------------------------------------------------

  type Color = string

  /** One call of the imaging library's text drawing. */
  datatype Draw = Draw(at: Position, text: string, color: Color)

  /** `itertools.product(xs, ys)`: all pairs, the first component varying slowest. */
  function Product(xs: seq<int>, ys: seq<int>): seq<(int, int)>
  {
    if xs == [] then []
    else seq(|ys|, k requires 0 <= k < |ys| => (xs[0], ys[k])) + Product(xs[1..], ys)
  }

  /**
   * The outline offsets `product((b, -b), repeat=2)`: (b, b), (b, -b),
   * (-b, b), (-b, -b), in that order.
   */
  function BorderOffsets(b: int): (r: seq<(int, int)>)
    ensures r == [(b, b), (b, -b), (-b, b), (-b, -b)]
  {
    var xs := [b, -b];
    assert Product(xs[1..][1..], xs) == [];
    assert Product(xs[1..], xs) == [(-b, b), (-b, -b)];
    Product(xs, xs)
  }

  /** `position` moved by `offset`. */
  function Shift(position: Position, offset: (int, int)): Position
  {
    Position(position.x + offset.0 as real, position.y + offset.1)
  }

  /** The text drawn once at each offset in the given colour. */
  function OffsetDraws(t: Text, offsets: seq<(int, int)>, color: Color): seq<Draw>
  {
    seq(|offsets|, k requires 0 <= k < |offsets| => Draw(Shift(t.position, offsets[k]), t.text, color))
  }

  /** The outline draws of one line followed by its fill draw. */
  function LineDraws(t: Text, borderSize: int, borderColor: Color, fillColor: Color): (r: seq<Draw>)
    ensures |r| == 5
  {
    OffsetDraws(t, BorderOffsets(borderSize), borderColor) + [Draw(t.position, t.text, fillColor)]
  }

  /** The draws for all lines, line after line. */
  function DrawPlan(texts: seq<Text>, borderSize: int, borderColor: Color, fillColor: Color): seq<Draw>
  {
    if texts == [] then []
    else DrawPlan(texts[..|texts| - 1], borderSize, borderColor, fillColor)
         + LineDraws(texts[|texts| - 1], borderSize, borderColor, fillColor)
  }

  /**
   * A line is drawn five times: in the border colour at (x+b, y+b),
   * (x+b, y-b), (x-b, y+b), (x-b, y-b), then in the fill colour at (x, y).
   */
  lemma LineDrawsExplicit(t: Text, b: int, borderColor: Color, fillColor: Color)
    ensures var x, y := t.position.x, t.position.y;
      LineDraws(t, b, borderColor, fillColor) == [
        Draw(Position(x + b as real, y + b), t.text, borderColor),
        Draw(Position(x + b as real, y - b), t.text, borderColor),
        Draw(Position(x - b as real, y + b), t.text, borderColor),
        Draw(Position(x - b as real, y - b), t.text, borderColor),
        Draw(Position(x, y), t.text, fillColor)]
  {
  }

  /** Without a border every draw of a line lands on its own origin. */
  lemma ZeroBorderDrawsInPlace(t: Text, borderColor: Color, fillColor: Color)
    ensures var ds := LineDraws(t, 0, borderColor, fillColor);
      |ds| == 5 && forall k :: 0 <= k < 5 ==> ds[k].at == t.position && ds[k].text == t.text
  {
    LineDrawsExplicit(t, 0, borderColor, fillColor);
  }

  /** The plan holds exactly the five draws of each line, in line order. */
  lemma {:induction false} DrawPlanAt(texts: seq<Text>, b: int, borderColor: Color, fillColor: Color)
    ensures |DrawPlan(texts, b, borderColor, fillColor)| == 5 * |texts|
    ensures forall i, k :: 0 <= i < |texts| && 0 <= k < 5 ==>
              DrawPlan(texts, b, borderColor, fillColor)[5 * i + k]
              == LineDraws(texts[i], b, borderColor, fillColor)[k]
  {
    if texts != [] {
      var n := |texts|;
      var front := texts[..n - 1];
      DrawPlanAt(front, b, borderColor, fillColor);
      LineDrawsExplicit(texts[n - 1], b, borderColor, fillColor);
      forall i, k | 0 <= i < n && 0 <= k < 5
        ensures DrawPlan(texts, b, borderColor, fillColor)[5 * i + k]
                == LineDraws(texts[i], b, borderColor, fillColor)[k]
      {
        if i < n - 1 {
          assert texts[i] == front[i];
        }
      }
    }
  }

  /** The image being drawn on: its size is fixed, its draws accumulate. */
  class Canvas {
    const width: nat
    const height: nat
    var draws: seq<Draw>

    constructor (width: nat, height: nat)
      ensures this.width == width && this.height == height && draws == []
    {
      this.width := width;
      this.height := height;
      draws := [];
    }

    /** Draws `text` at `at` in `color`. */
    method DrawText(at: Position, text: string, color: Color)
      modifies this
      ensures draws == old(draws) + [Draw(at, text, color)]
    {
      draws := draws + [Draw(at, text, color)];
    }
  }

  /**
   * Lays out the caption on the canvas and, if it fits, draws every line
   * with its outline; when the layout fails nothing is drawn.
   */
  method DrawMeme(canvas: Canvas, measure: string -> Size, wrap: (string, int) -> seq<string>,
                  message: string, fillColor: Color, borderColor: Color, borderSize: int,
                  spacing: int, marginBottom: int, wrapWidth: int)
    returns (r: Result<(), LayoutError>)
    modifies canvas
    ensures var p := LayoutParams(spacing, borderSize, canvas.width, canvas.height, marginBottom);
      var caption := Caption(measure, wrap, message, p, wrapWidth);
      && (caption.Err? ==> r == Err(caption.error) && canvas.draws == old(canvas.draws))
      && (caption.Ok? ==>
            && r == Ok(())
            && canvas.draws == old(canvas.draws) + DrawPlan(caption.value, borderSize, borderColor, fillColor))
  {
    var p := LayoutParams(spacing, borderSize, canvas.width, canvas.height, marginBottom);
    var lines := GetTexts(measure, wrap, message, p, wrapWidth);
    if lines.Err? {
      return Err(lines.error);
    }
    var texts := lines.value;
    var offsets := BorderOffsets(borderSize);
    var i := 0;
    while i < |texts|
      invariant 0 <= i <= |texts|
      invariant canvas.draws == old(canvas.draws) + DrawPlan(texts[..i], borderSize, borderColor, fillColor)
    {
      var t := texts[i];
      ghost var before := canvas.draws;
      var j := 0;
      while j < |offsets|
        invariant 0 <= j <= |offsets|
        invariant canvas.draws == before + OffsetDraws(t, offsets[..j], borderColor)
      {
        canvas.DrawText(Shift(t.position, offsets[j]), t.text, borderColor);
        assert OffsetDraws(t, offsets[..j + 1], borderColor)
               == OffsetDraws(t, offsets[..j], borderColor) + [Draw(Shift(t.position, offsets[j]), t.text, borderColor)];
        j := j + 1;
      }
      assert offsets[..j] == offsets;
      canvas.DrawText(t.position, t.text, fillColor);
      assert texts[..i + 1][..i] == texts[..i];
      i := i + 1;
    }
    assert texts[..i] == texts;
    return Ok(());
  }
}
