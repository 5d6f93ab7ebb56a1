/** The pixel codec: 24-bit colour to the panel's 16-bit RGB565, sent big-endian.

    Both drivers compute `((r & 0xF8) << 8) | ((g & 0xFC) << 3) | (b >> 3)` per
    pixel and append its high byte, then its low byte, to the frame buffer. */
module Rgb565 {
  import opened Hardware
  import opened Bits

  /** One pixel as the decoder lays it out in memory: three channel bytes. */
  datatype Triple = Triple(c0: byte, c1: byte, c2: byte)

  /** cv2.cvtColor(frame, COLOR_BGR2RGB): the first and last channels trade places. */
  function BgrToRgb(p: Triple): (q: Triple)
    ensures q.c0 == p.c2 && q.c1 == p.c1 && q.c2 == p.c0
  {
    Triple(p.c2, p.c1, p.c0)
  }

  function FrameToRgb(frame: seq<Triple>): (rgb: seq<Triple>)
    ensures |rgb| == |frame| && forall i :: 0 <= i < |frame| ==> rgb[i] == BgrToRgb(frame[i])
  {
    seq(|frame|, i requires 0 <= i < |frame| => BgrToRgb(frame[i]))
  }

  /** The channel swap is its own inverse, so two pixels convert alike only if they are equal. */
  lemma BgrToRgbTwice(p: Triple, q: Triple)
    ensures BgrToRgb(BgrToRgb(p)) == p
    ensures BgrToRgb(p) == BgrToRgb(q) <==> p == q
  {
  }

  /** Converting a frame keeps its pixel count and order: converting it twice gives it back. */
  lemma FrameToRgbTwice(frame: seq<Triple>)
    ensures |FrameToRgb(frame)| == |frame|
    ensures FrameToRgb(FrameToRgb(frame)) == frame
  {
    var back := FrameToRgb(FrameToRgb(frame));
    forall i | 0 <= i < |frame|
      ensures back[i] == frame[i]
    {
      BgrToRgbTwice(frame[i], frame[i]);
    }
  }

  /** The RGB565 value of a colour: the top five bits of red, six of green and five of blue,
      most significant first. */
  function Pack(r: byte, g: byte, b: byte): nat
  {
    (r / 8) * 2048 + (g / 4) * 32 + b / 8
  }

  /** `((r & 0xF8) << 8) | ((g & 0xFC) << 3) | (b >> 3)`, as both drivers compute it */
  function PackBits(r: byte, g: byte, b: byte): nat
  {
    Or(Or(Shl(And(r, 0xF8), 8), Shl(And(g, 0xFC), 3)), Shr(b, 3))
  }

  lemma Red(r: byte)
    ensures Shl(And(r, 0xF8), 8) == (r / 8) * 2048
  {
    assert Pow2(3) == 8 && Pow2(5) == 32 && Shl(31, 3) == 0xF8;
    AndTop(r, 3, 8, 5, 32);
    assert Pow2(8) == 256;
    ShlBy(And(r, 0xF8), 8, 256);
  }

  lemma Green(g: byte)
    ensures Shl(And(g, 0xFC), 3) == (g / 4) * 32
  {
    assert Pow2(2) == 4 && Pow2(6) == 64 && Shl(63, 2) == 0xFC;
    AndTop(g, 2, 4, 6, 64);
    assert Pow2(3) == 8;
    ShlBy(And(g, 0xFC), 3, 8);
  }

  lemma Blue(b: byte)
    ensures Shr(b, 3) == b / 8 < 32
  {
    assert Pow2(3) == 8;
    ShrDiv(b, 3, 8);
  }

  /** The drivers' bitwise expression computes the RGB565 value. */
  lemma PackValue(r: byte, g: byte, b: byte)
    ensures PackBits(r, g, b) == Pack(r, g, b)
  {
    var top := (r / 8) * 64 + g / 4;
    var high, blue := Or(Shl(And(r, 0xF8), 8), Shl(And(g, 0xFC), 3)), Shr(b, 3);
    assert high == Shl(top, 5) by {
      RedGreen(r, g);
    }
    assert blue == b / 8 < 32 by {
      Blue(b);
    }
    assert Or(high, blue) == top * 32 + b / 8 by {
      assert Pow2(5) == 32;
      OrShl(top, blue, 5);
      ShlBy(top, 5, 32);
    }
  }

  /** The red and green fields side by side: the eleven high bits of the value. */
  lemma RedGreen(r: byte, g: byte)
    ensures Or(Shl(And(r, 0xF8), 8), Shl(And(g, 0xFC), 3)) == Shl((r / 8) * 64 + g / 4, 5)
  {
    var hi, mid := r / 8, g / 4;
    var red, green := Shl(And(r, 0xF8), 8), Shl(And(g, 0xFC), 3);
    assert Pow2(11) == 2048 && Pow2(5) == 32;
    Red(r);
    Green(g);
    ShlBy(hi, 11, 2048);
    OrShl(hi, green, 11);
    ShlBy(hi * 64 + mid, 5, 32);
  }

  /** The value fits sixteen bits, and each channel keeps exactly its top bits. */
  lemma PackFields(r: byte, g: byte, b: byte)
    ensures Pack(r, g, b) < 0x10000
    ensures Pack(r, g, b) / 2048 == r / 8
    ensures (Pack(r, g, b) / 32) % 64 == g / 4
    ensures Pack(r, g, b) % 32 == b / 8
  {
    FieldsOf(Pack(r, g, b), r / 8, g / 4, b / 8);
  }

  /** Reading the three fields back out of a five-six-five value. */
  lemma FieldsOf(v: nat, hi: nat, mid: nat, lo: nat)
    requires hi < 32 && mid < 64 && lo < 32 && v == hi * 2048 + mid * 32 + lo
    ensures v < 0x10000 && v / 2048 == hi && (v / 32) % 64 == mid && v % 32 == lo
  {
    DivModUnique(v, 2048, hi, mid * 32 + lo);
    DivModUnique(v, 32, hi * 64 + mid, lo);
    DivModUnique(hi * 64 + mid, 64, hi, mid);
  }

  /** The colour a sixteen-bit value shows: each field moved back to the top of its channel. */
  function Unpack(v: nat): (c: Triple)
    requires v < 0x10000
    ensures c.c0 % 8 == 0 && c.c1 % 4 == 0 && c.c2 % 8 == 0
  {
    Triple((v / 2048) * 8, ((v / 32) % 64) * 4, (v % 32) * 8)
  }

  /** Every sixteen-bit value is the packing of some colour: the one it unpacks to. */
  lemma PackUnpack(v: nat)
    requires v < 0x10000
    ensures var c := Unpack(v); Pack(c.c0, c.c1, c.c2) == v
  {
    var c := Unpack(v);
    assert c.c0 / 8 == v / 2048 && c.c1 / 4 == (v / 32) % 64 && c.c2 / 8 == v % 32;
    DivModUnique(v, 32, v / 32, v % 32);
    DivModUnique(v / 32, 64, (v / 32) / 64, (v / 32) % 64);
    assert (v / 32) / 64 == v / 2048;
  }

  /** Packing then unpacking truncates each channel to its kept bits, no rounding. */
  lemma UnpackPack(r: byte, g: byte, b: byte)
    ensures Pack(r, g, b) < 0x10000 && Unpack(Pack(r, g, b)) == Triple(r - r % 8, g - g % 4, b - b % 8)
  {
    PackFields(r, g, b);
    var v := Pack(r, g, b);
    var c := Unpack(v);
    assert c.c0 == (r / 8) * 8 == r - r % 8;
    assert c.c1 == (g / 4) * 4 == g - g % 4;
    assert c.c2 == (b / 8) * 8 == b - b % 8;
  }

  /** The two bytes of one pixel: its RGB565 value, high byte first */
  function PixelBytes(p: Triple): (bs: seq<byte>)
  {
    var v := Pack(p.c0, p.c1, p.c2);
    PackFields(p.c0, p.c1, p.c2);
    [v / 256, v % 256]
  }

  /** `[(rgb >> 8) & 0xFF, rgb & 0xFF]` on the drivers' value gives the pixel's two bytes, and
      they put the value back together. */
  lemma PixelBytesValue(p: Triple)
    ensures var v := PackBits(p.c0, p.c1, p.c2);
      PixelBytes(p) == [And(Shr(v, 8), 0xFF), And(v, 0xFF)] &&
      (PixelBytes(p)[0] as int) * 256 + PixelBytes(p)[1] == Pack(p.c0, p.c1, p.c2)
  {
    PackValue(p.c0, p.c1, p.c2);
    PackFields(p.c0, p.c1, p.c2);
    HighLowBytes(Pack(p.c0, p.c1, p.c2));
  }

  /** Byte by byte: the high byte is red's five bits over green's top three, the low byte
      green's low three bits over blue's five. */
  lemma PixelBytesFields(p: Triple)
    ensures PixelBytes(p) == [(p.c0 / 8) * 8 + p.c1 / 32, ((p.c1 / 4) % 8) * 32 + p.c2 / 8]
  {
    SplitFields(p.c0, p.c1, p.c2, Pack(p.c0, p.c1, p.c2));
  }

  lemma SplitFields(r: byte, g: byte, b: byte, v: nat)
    requires v == (r / 8) * 2048 + (g / 4) * 32 + b / 8
    ensures v / 256 == (r / 8) * 8 + g / 32 && v % 256 == ((g / 4) % 8) * 32 + b / 8
  {
    var hi, lo := (r / 8) * 8 + (g / 4) / 8, ((g / 4) % 8) * 32 + b / 8;
    assert v == 256 * hi + lo;
    DivModUnique(v, 256, hi, lo);
    assert (g / 4) / 8 == g / 32;
  }

  /** White is 0xFFFF, black 0x0000, and full red 0xF800: the standard RGB565 values. */
  lemma White(p: Triple)
    requires p == Triple(255, 255, 255)
    ensures PixelBytes(p) == [0xFF, 0xFF]
  {
    FieldsAre(p, 255, 255, 255, 0xFF, 0xFF);
  }

  lemma Black(p: Triple)
    requires p == Triple(0, 0, 0)
    ensures PixelBytes(p) == [0x00, 0x00]
  {
    FieldsAre(p, 0, 0, 0, 0, 0);
  }

  /** The triples here are in RGB order, after the channel swap: the decoder's BGR pixel
      (0, 0, 248) is the one that becomes full red. */
  lemma FullRed(p: Triple)
    requires p == Triple(248, 0, 0)
    ensures PixelBytes(p) == [0xF8, 0x00]
    ensures BgrToRgb(Triple(0, 0, 248)) == p
  {
    FieldsAre(p, 248, 0, 0, 0xF8, 0);
  }

  lemma FieldsAre(p: Triple, r: byte, g: byte, b: byte, hi: byte, lo: byte)
    requires p == Triple(r, g, b)
    requires hi == (r / 8) * 8 + g / 32 && lo == ((g / 4) % 8) * 32 + b / 8
    ensures PixelBytes(p) == [hi, lo]
  {
    PixelBytesFields(p);
  }

  /** A value stored back into a NumPy `uint8`: its low eight bits. */
  function Uint8(x: nat): byte
  {
    x % 256
  }

  /** The packing as NumPy 2 (NEP 50 promotion) evaluates it on the `uint8` channels that
      `r, g, b = pixel` yields: every operation stays `uint8` and wraps to eight bits. */
  function PackUint8(r: byte, g: byte, b: byte): byte
  {
    Uint8(Or(Uint8(Or(Uint8(Shl(And(r, 0xF8), 8)), Uint8(Shl(And(g, 0xFC), 3)))), Shr(b, 3)))
  }

  /** The two bytes the drivers append, `(rgb >> 8) & 0xFF` and `rgb & 0xFF`, on that value */
  function PixelBytesUint8(p: Triple): seq<byte>
  {
    var v := PackUint8(p.c0, p.c1, p.c2);
    AndAtMost(Shr(v, 8), 0xFF);
    AndAtMost(v, 0xFF);
    [And(Shr(v, 8), 0xFF), And(v, 0xFF)]
  }

  /** Evaluated in `uint8`, every high byte of the frame buffer is 0. */
  lemma Uint8HighByteLost(p: Triple)
    ensures PixelBytesUint8(p)[0] == 0
  {
    var v := PackUint8(p.c0, p.c1, p.c2);
    assert Pow2(8) == 256;
    ShrDiv(v, 8, 256);
  }

  /** So white reaches the panel as 00 FF rather than FF FF. */
  lemma Uint8White(p: Triple)
    requires p == Triple(255, 255, 255)
    ensures PixelBytesUint8(p) != PixelBytes(p)
  {
    Uint8HighByteLost(p);
    White(p);
  }

  /** The frame buffer of a sequence of RGB pixels, in order. */
  function Encode(pixels: seq<Triple>): seq<byte>
    decreases |pixels|
  {
    if pixels == [] then []
    else Encode(pixels[..|pixels| - 1]) + PixelBytes(pixels[|pixels| - 1])
  }

  /** The buffer has two bytes per pixel; pixel `i` is at `2i` (high byte) and `2i + 1` (low byte). */
  lemma {:induction false} EncodeLayout(pixels: seq<Triple>)
    ensures |Encode(pixels)| == 2 * |pixels|
    ensures forall i :: 0 <= i < |pixels| ==> Encode(pixels)[2 * i .. 2 * i + 2] == PixelBytes(pixels[i])
    decreases |pixels|
  {
    if pixels != [] {
      var init := pixels[..|pixels| - 1];
      EncodeLayout(init);
      var e := Encode(pixels);
      assert e == Encode(init) + PixelBytes(pixels[|pixels| - 1]);
      forall i | 0 <= i < |pixels| ensures e[2 * i .. 2 * i + 2] == PixelBytes(pixels[i]) {
        if i < |init| {
          assert e[2 * i .. 2 * i + 2] == Encode(init)[2 * i .. 2 * i + 2];
        } else {
          assert e[2 * i .. 2 * i + 2] == PixelBytes(pixels[|pixels| - 1]);
        }
      }
    }
  }

  /** The conversion loop of display_frame: channel swap, then two bytes per pixel appended. */
  method ConvertFrame(frame: seq<Triple>) returns (buffer: seq<byte>)
    ensures buffer == Encode(FrameToRgb(frame))
    ensures |buffer| == 2 * |frame|
    ensures forall i :: 0 <= i < |frame| ==>
      var p := BgrToRgb(frame[i]); var v := Pack(p.c0, p.c1, p.c2);
      buffer[2 * i] == v / 256 && buffer[2 * i + 1] == v % 256
  {
    var pixels := FrameToRgb(frame);
    buffer := [];
    var i := 0;
    while i < |pixels|
      invariant 0 <= i <= |pixels|
      invariant buffer == Encode(pixels[..i])
    {
      var p := pixels[i];
      var rgb := PackBits(p.c0, p.c1, p.c2);
      PixelBytesValue(p);
      AndAtMost(Shr(rgb, 8), 0xFF);
      AndAtMost(rgb, 0xFF);
      buffer := buffer + [And(Shr(rgb, 8), 0xFF)];
      buffer := buffer + [And(rgb, 0xFF)];
      assert pixels[..i + 1][..i] == pixels[..i];
      i := i + 1;
    }
    assert pixels[..i] == pixels;
    EncodeLayout(pixels);
    forall i | 0 <= i < |frame|
      ensures var p := BgrToRgb(frame[i]); var v := Pack(p.c0, p.c1, p.c2);
        buffer[2 * i] == v / 256 && buffer[2 * i + 1] == v % 256
    {
      assert buffer[2 * i .. 2 * i + 2] == PixelBytes(pixels[i]);
    }
  }
}
