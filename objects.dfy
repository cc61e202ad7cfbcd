/** Commercial lengths and stream thumbnails. */
module Objects {
  import opened Wrappers
  import opened GoStrings
  import opened Strconv

  /** CommercialLength: the length of a commercial break, in seconds. */
  newtype CommercialLength = int
  {
    /** A length is valid when it is one of the six lengths the API accepts. */
    predicate IsValid()
    {
      this == 30 || this == 60 || this == 90 || this == 120 || this == 150 || this == 180
    }

    /** The decimal text of a valid length, "invalid" for any other. */
    function String(): (r: string)
      ensures r != "invalid" <==> IsValid()
      ensures IsValid() ==> r == Itoa(this as int)
    {
      assert Itoa(30) == "30" && Itoa(60) == "60" && Itoa(90) == "90";
      assert Itoa(120) == "120" && Itoa(150) == "150" && Itoa(180) == "180";
      match this
      case 30 => "30"
      case 60 => "60"
      case 90 => "90"
      case 120 => "120"
      case 150 => "150"
      case 180 => "180"
      case _ => "invalid"
    }

    /** The smallest valid length not below this one; 180 for anything longer. */
    function Validate(): (r: CommercialLength)
      ensures r.IsValid()
      ensures this <= 180 ==> this <= r
      ensures this > 180 ==> r == 180
      ensures forall v: CommercialLength :: v.IsValid() && this <= v ==> r <= v
    {
      if this <= 30 then 30
      else if this <= 60 then 60
      else if this <= 90 then 90
      else if this <= 120 then 120
      else if this <= 150 then 150
      else 180
    }
  }

  /** The valid lengths are exactly the ones Validate leaves unchanged. */
  lemma ValidIffFixedByValidate(cl: CommercialLength)
    ensures cl.IsValid() <==> cl.Validate() == cl
  {
  }

  /** Validate is idempotent. */
  lemma ValidateIdempotent(cl: CommercialLength)
    ensures cl.Validate().Validate() == cl.Validate()
  {
  }

  /** Validate never maps a longer length to a shorter one. */
  lemma ValidateMonotone(a: CommercialLength, b: CommercialLength)
    requires a <= b
    ensures a.Validate() <= b.Validate()
  {
  }

  /** ThumbnailUrlOptions: the requested width and height in pixels. */
  datatype ThumbnailUrlOptions = ThumbnailUrlOptions(width: int, height: int)

  /** Stream: a live stream as the API describes it. */
  datatype Stream = Stream(
    gameID: string,
    gameName: string,
    id: string,
    isMature: bool,
    language: string,
    startedAt: string,
    tagIDs: string,
    thumbnailURL: string,
    title: string,
    typ: string,
    userID: string,
    userLogin: string,
    userName: string,
    viewerCount: int)
  {
    /**
     * The thumbnail address at a size: 1920 by 1080 unless the options give a positive
     * width or height, with `{width}` and then `{height}` replaced by the numbers.
     */
    function GetThumbnailUrl(options: Option<ThumbnailUrlOptions>): string
    {
      var width := if options.Some? && options.value.width > 0 then options.value.width else 1920;
      var height := if options.Some? && options.value.height > 0 then options.value.height else 1080;
      var url := ReplaceAll(thumbnailURL, "{width}", Itoa(width));
      ReplaceAll(url, "{height}", Itoa(height))
    }
  }

  // ---------------------------------------------------------------------------
  // Thumbnail templates.
  // ---------------------------------------------------------------------------

  /** A piece of a thumbnail template: literal text without `{`, or a `{width}`/`{height}` slot. */
  datatype Piece = Text(text: string) | Slot(name: string)

  predicate WellFormed(ps: seq<Piece>)
  {
    forall i :: 0 <= i < |ps| ==>
      match ps[i]
      case Text(t) => '{' !in t
      case Slot(n) => n == "width" || n == "height"
  }

  function SlotText(name: string): string { "{" + name + "}" }

  /** The template text the API sends. */
  function Print(ps: seq<Piece>): string
  {
    if ps == [] then ""
    else
      match ps[0]
      case Text(t) => t + Print(ps[1..])
      case Slot(n) => SlotText(n) + Print(ps[1..])
  }

  /** The address with both slots filled with the numbers. */
  function Render(ps: seq<Piece>, width: int, height: int): string
  {
    if ps == [] then ""
    else
      match ps[0]
      case Text(t) => t + Render(ps[1..], width, height)
      case Slot(n) => (if n == "width" then Itoa(width) else Itoa(height)) + Render(ps[1..], width, height)
  }

  /** The template with the slots named `name` turned into the text `value`. */
  function Fill(ps: seq<Piece>, name: string, value: string): (r: seq<Piece>)
    ensures |r| == |ps|
  {
    if ps == [] then []
    else
      match ps[0]
      case Text(t) => [Text(t)] + Fill(ps[1..], name, value)
      case Slot(n) => [if n == name then Text(value) else Slot(n)] + Fill(ps[1..], name, value)
  }

  /** The size GetThumbnailUrl uses for a request, as (width, height). */
  function Size(options: Option<ThumbnailUrlOptions>): (int, int)
  {
    ( if options.Some? && options.value.width > 0 then options.value.width else 1920,
      if options.Some? && options.value.height > 0 then options.value.height else 1080 )
  }

  lemma NoBraceInDecimal(n: int)
    ensures '{' !in Itoa(n)
  {
    var d := NatDigits(if n < 0 then -n else n);
    assert forall i :: 0 <= i < |d| ==> IsDigit(d[i]);
    if n < 0 {
      assert Itoa(n) == "-" + d;
      assert forall i :: 0 <= i < |Itoa(n)| ==> Itoa(n)[i] == '-' || IsDigit(Itoa(n)[i]);
    }
  }

  /** An occurrence of a slot starts with `{`, so none starts in text without one. */
  lemma NoOccurrenceInText(t: string, rest: string, name: string)
    requires '{' !in t
    ensures forall i :: 0 <= i < |t| ==> !OccursAt(t + rest, SlotText(name), i)
  {
    forall i | 0 <= i < |t|
      ensures !OccursAt(t + rest, SlotText(name), i)
    {
      OccursAtChar(t + rest, SlotText(name), i, 0);
      assert (t + rest)[i] == t[i] && t[i] in t;
    }
  }

  /** The other slot's text does not contain an occurrence of this slot. */
  lemma NoOccurrenceInOtherSlot(other: string, rest: string, name: string)
    requires other == "width" || other == "height"
    requires name == "width" || name == "height"
    requires other != name
    ensures forall i :: 0 <= i < |SlotText(other)| ==> !OccursAt(SlotText(other) + rest, SlotText(name), i)
  {
    var q := SlotText(other);
    var s := q + rest;
    forall i | 0 <= i < |q|
      ensures !OccursAt(s, SlotText(name), i)
    {
      OccursAtChar(s, SlotText(name), i, 0);
      OccursAtChar(s, SlotText(name), i, 1);
      assert s[i] == q[i];
      assert s[1] == other[0];
      assert SlotText(name)[1] == name[0];
    }
  }

  /** Replacing a slot's text in a template fills exactly the slots of that name. */
  lemma {:induction false} ReplaceSlot(ps: seq<Piece>, name: string, value: string)
    requires WellFormed(ps)
    requires name == "width" || name == "height"
    ensures ReplaceAll(Print(ps), SlotText(name), value) == Print(Fill(ps, name, value))
    decreases |ps|
  {
    var pat := SlotText(name);
    if ps == [] {
    } else {
      assert WellFormed(ps[1..]) by {
        forall i | 0 <= i < |ps[1..]| ensures ps[1..][i] == ps[i + 1] {}
      }
      ReplaceSlot(ps[1..], name, value);
      var rest := Print(ps[1..]);
      match ps[0]
      case Text(t) =>
        NoOccurrenceInText(t, rest, name);
        ReplaceAllPrefix(t, rest, pat, value);
      case Slot(n) =>
        if n == name {
          ReplaceAllFront(rest, pat, value);
        } else {
          NoOccurrenceInOtherSlot(n, rest, name);
          ReplaceAllPrefix(SlotText(n), rest, pat, value);
        }
    }
  }

  /** A filled template is still well formed when the value has no `{`. */
  lemma {:induction false} FillWellFormed(ps: seq<Piece>, name: string, value: string)
    requires WellFormed(ps) && '{' !in value
    ensures WellFormed(Fill(ps, name, value))
    decreases |ps|
  {
    if ps != [] {
      assert WellFormed(ps[1..]) by {
        forall i | 0 <= i < |ps[1..]| ensures ps[1..][i] == ps[i + 1] {}
      }
      FillWellFormed(ps[1..], name, value);
      var f := Fill(ps, name, value);
      assert f[1..] == Fill(ps[1..], name, value);
    }
  }

  /** Filling first the width and then the height renders the template. */
  lemma {:induction false} FillBoth(ps: seq<Piece>, width: int, height: int)
    requires WellFormed(ps)
    ensures Print(Fill(Fill(ps, "width", Itoa(width)), "height", Itoa(height))) == Render(ps, width, height)
    decreases |ps|
  {
    if ps != [] {
      assert WellFormed(ps[1..]) by {
        forall i | 0 <= i < |ps[1..]| ensures ps[1..][i] == ps[i + 1] {}
      }
      FillBoth(ps[1..], width, height);
      var f := Fill(ps, "width", Itoa(width));
      assert f[1..] == Fill(ps[1..], "width", Itoa(width));
      var g := Fill(f, "height", Itoa(height));
      assert g[1..] == Fill(f[1..], "height", Itoa(height));
    }
  }

  /**
   * For a thumbnail address made of text and `{width}`/`{height}` slots, GetThumbnailUrl
   * puts the chosen width and height into exactly those slots and keeps all other text.
   */
  lemma ThumbnailRendersTemplate(s: Stream, ps: seq<Piece>, options: Option<ThumbnailUrlOptions>)
    requires WellFormed(ps) && s.thumbnailURL == Print(ps)
    ensures s.GetThumbnailUrl(options) == Render(ps, Size(options).0, Size(options).1)
  {
    var w, h := Size(options).0, Size(options).1;
    assert SlotText("width") == "{width}" && SlotText("height") == "{height}";
    assert s.GetThumbnailUrl(options)
      == ReplaceAll(ReplaceAll(Print(ps), SlotText("width"), Itoa(w)), SlotText("height"), Itoa(h));
    NoBraceInDecimal(w);
    NoBraceInDecimal(h);
    ReplaceSlot(ps, "width", Itoa(w));
    FillWellFormed(ps, "width", Itoa(w));
    ReplaceSlot(Fill(ps, "width", Itoa(w)), "height", Itoa(h));
    FillBoth(ps, w, h);
  }

  // ---------------------------------------------------------------------------
  // Any thumbnail address.
  // ---------------------------------------------------------------------------

  const WidthSlot: string := "{width}"
  const HeightSlot: string := "{height}"

  /**
   * Both slots filled in one left-to-right scan: a `{width}` becomes `w`, a `{height}`
   * becomes `h`, and every other character is kept.
   */
  function FillSlots(u: string, w: string, h: string): string
    decreases |u|
  {
    if u == [] then ""
    else if OccursAt(u, WidthSlot, 0) then w + FillSlots(u[|WidthSlot|..], w, h)
    else if OccursAt(u, HeightSlot, 0) then h + FillSlots(u[|HeightSlot|..], w, h)
    else [u[0]] + FillSlots(u[1..], w, h)
  }

  /** The text Itoa writes: a non-empty run of digits and minus signs. */
  predicate DecimalText(w: string)
  {
    w != [] && forall i :: 0 <= i < |w| ==> w[i] == '-' || IsDigit(w[i])
  }

  lemma ItoaIsDecimalText(n: int)
    ensures DecimalText(Itoa(n))
  {
    var d := NatDigits(if n < 0 then -n else n);
    if n < 0 {
      assert Itoa(n) == "-" + d;
      assert forall i :: 1 <= i < |Itoa(n)| ==> Itoa(n)[i] == d[i - 1];
    }
  }

  /**
   * Replacing `{width}` by a text that starts with neither of the characters of `p`
   * cannot make `p` appear at the front: when it is at the front afterwards, it was
   * there before.
   */
  lemma {:induction false} WidthPassKeepsPrefix(v: string, p: string, w: string)
    requires w != [] && forall k :: 0 <= k < |p| ==> p[k] != w[0]
    requires |p| <= |ReplaceAll(v, WidthSlot, w)| && ReplaceAll(v, WidthSlot, w)[..|p|] == p
    ensures |p| <= |v| && v[..|p|] == p
    decreases |p|
  {
    if p != [] {
      var m := ReplaceAll(v, WidthSlot, w);
      WidthPassFront(v, w);
      assert m[..|p|][0] == p[0];
      if v != [] && !OccursAt(v, WidthSlot, 0) {
        var m1 := ReplaceAll(v[1..], WidthSlot, w);
        assert m1[..|p| - 1] == m[1..|p|] == p[1..];
        WidthPassKeepsPrefix(v[1..], p[1..], w);
        assert v[..|p|] == [v[0]] + v[1..][..|p| - 1];
      }
    }
  }

  /** The first step of the `{width}` pass. */
  lemma WidthPassFront(v: string, w: string)
    ensures v == [] ==> ReplaceAll(v, WidthSlot, w) == []
    ensures OccursAt(v, WidthSlot, 0) ==> ReplaceAll(v, WidthSlot, w) == w + ReplaceAll(v[|WidthSlot|..], WidthSlot, w)
    ensures v != [] && !OccursAt(v, WidthSlot, 0) ==>
      ReplaceAll(v, WidthSlot, w) == [v[0]] + ReplaceAll(v[1..], WidthSlot, w)
  {
  }

  /** No `{height}` starts inside a text without `{`. */
  lemma NoHeightInDecimal(w: string, r: string)
    requires DecimalText(w)
    ensures forall i :: 0 <= i < |w| ==> !OccursAt(w + r, HeightSlot, i)
  {
    forall i | 0 <= i < |w|
      ensures !OccursAt(w + r, HeightSlot, i)
    {
      OccursAtChar(w + r, HeightSlot, i, 0);
      assert (w + r)[i] == w[i];
    }
  }

  /** No `{width}` starts inside `{height}`. */
  lemma NoWidthInHeight(r: string)
    ensures forall i :: 0 <= i < |HeightSlot| ==> !OccursAt(HeightSlot + r, WidthSlot, i)
  {
    var s := HeightSlot + r;
    forall i | 0 <= i < |HeightSlot|
      ensures !OccursAt(s, WidthSlot, i)
    {
      OccursAtChar(s, WidthSlot, i, 0);
      OccursAtChar(s, WidthSlot, i, 1);
      assert s[i] == HeightSlot[i];
      assert s[1] == HeightSlot[1];
    }
  }

  /**
   * The two ReplaceAll passes of GetThumbnailUrl fill both slots in one scan, for every
   * address, when the replacements are decimal texts.
   */
  lemma {:induction false} TwoPassesFillSlots(u: string, w: string, h: string)
    requires DecimalText(w)
    ensures ReplaceAll(ReplaceAll(u, WidthSlot, w), HeightSlot, h) == FillSlots(u, w, h)
    decreases |u|
  {
    var m := ReplaceAll(u, WidthSlot, w);
    if u == [] {
      assert m == [];
    } else if OccursAt(u, WidthSlot, 0) {
      var m7 := ReplaceAll(u[|WidthSlot|..], WidthSlot, w);
      assert m == w + m7;
      NoHeightInDecimal(w, m7);
      ReplaceAllPrefix(w, m7, HeightSlot, h);
      TwoPassesFillSlots(u[|WidthSlot|..], w, h);
    } else if OccursAt(u, HeightSlot, 0) {
      var r := u[|HeightSlot|..];
      assert u == HeightSlot + r;
      NoWidthInHeight(r);
      ReplaceAllPrefix(HeightSlot, r, WidthSlot, w);
      ReplaceAllFront(ReplaceAll(r, WidthSlot, w), HeightSlot, h);
      TwoPassesFillSlots(r, w, h);
    } else {
      var m1 := ReplaceAll(u[1..], WidthSlot, w);
      assert m == [u[0]] + m1;
      if OccursAt(m, HeightSlot, 0) {
        var p := HeightSlot[1..];
        assert m[1..|HeightSlot|] == p;
        assert m1[..|p|] == p;
        WidthPassKeepsPrefix(u[1..], p, w);
        assert false;
      }
      TwoPassesFillSlots(u[1..], w, h);
    }
  }

  /** Text without `{` passes the scan unchanged. */
  lemma {:induction false} FillSlotsKeepsPlainText(u: string, w: string, h: string)
    requires '{' !in u
    ensures FillSlots(u, w, h) == u
    decreases |u|
  {
    if u != [] {
      OccursAtChar(u, WidthSlot, 0, 0);
      OccursAtChar(u, HeightSlot, 0, 0);
      assert u[0] in u;
      assert forall c :: c in u[1..] ==> c in u;
      FillSlotsKeepsPlainText(u[1..], w, h);
    }
  }

  /**
   * For every thumbnail address, GetThumbnailUrl replaces each `{width}` and each
   * `{height}` by the chosen size and keeps every other character.
   */
  lemma ThumbnailFillsSlots(s: Stream, options: Option<ThumbnailUrlOptions>)
    ensures s.GetThumbnailUrl(options)
      == FillSlots(s.thumbnailURL, Itoa(Size(options).0), Itoa(Size(options).1))
  {
    ItoaIsDecimalText(Size(options).0);
    TwoPassesFillSlots(s.thumbnailURL, Itoa(Size(options).0), Itoa(Size(options).1));
  }

  /** The defaults, and each dimension overridden only by a positive value of its own. */
  lemma SizeDefaults(options: Option<ThumbnailUrlOptions>)
    ensures options.None? ==> Size(options) == (1920, 1080)
    ensures options.Some? && options.value.width > 0 ==> Size(options).0 == options.value.width
    ensures options.Some? && options.value.width <= 0 ==> Size(options).0 == 1920
    ensures options.Some? && options.value.height > 0 ==> Size(options).1 == options.value.height
    ensures options.Some? && options.value.height <= 0 ==> Size(options).1 == 1080
  {
  }

  /** The template shape of the unit tests: some text, then `{width}x{height}.jpg`. */
  function TestTemplate(head: string): seq<Piece>
  {
    [Text(head), Slot("width"), Text("x"), Slot("height"), Text(".jpg")]
  }

  lemma TestTemplateWF(head: string)
    requires '{' !in head
    ensures WellFormed(TestTemplate(head))
  {
  }

  lemma TestTemplatePrint(head: string)
    ensures Print(TestTemplate(head)) == head + "{width}x{height}.jpg"
  {
    var ps := TestTemplate(head);
    var w, h := SlotText("width"), SlotText("height");
    assert w == "{width}" && h == "{height}";
    assert Print(ps[4..]) == ".jpg";
    assert Print(ps[3..]) == h + ".jpg";
    assert Print(ps[2..]) == "x" + h + ".jpg";
    assert Print(ps[1..]) == w + "x" + h + ".jpg";
    assert Print(ps) == head + (w + "x" + h + ".jpg");
  }

  lemma TestTemplateRender(head: string, w: int, h: int)
    ensures Render(TestTemplate(head), w, h) == head + Itoa(w) + "x" + Itoa(h) + ".jpg"
  {
    var ps := TestTemplate(head);
    var x, y := Itoa(w), Itoa(h);
    assert Render(ps[4..], w, h) == ".jpg";
    assert Render(ps[3..], w, h) == y + ".jpg";
    assert Render(ps[2..], w, h) == "x" + y + ".jpg";
    assert Render(ps[1..], w, h) == x + "x" + y + ".jpg";
    assert Render(ps, w, h) == head + (x + "x" + y + ".jpg");
  }

  /**
   * The thumbnail requests of the unit tests, for any address of the form
   * `<text>{width}x{height}.jpg` whose text has no `{` (the tests use a CDN address):
   * defaults, both sizes, width only, height only.
   */
  lemma ThumbnailDefaults(s: Stream, head: string, options: Option<ThumbnailUrlOptions>)
    requires '{' !in head && s.thumbnailURL == head + "{width}x{height}.jpg"
    requires options.None? || (options.value.width <= 0 && options.value.height <= 0)
    ensures s.GetThumbnailUrl(options) == head + "1920x1080.jpg"
  {
    ItoaSize(1920); ItoaSize(1080);
    ThumbnailExample(s, head, options, 1920, 1080, "1920", "1080", "1920x1080.jpg");
  }

  lemma ThumbnailBothSizes(s: Stream, head: string)
    requires '{' !in head && s.thumbnailURL == head + "{width}x{height}.jpg"
    ensures s.GetThumbnailUrl(Some(ThumbnailUrlOptions(640, 360))) == head + "640x360.jpg"
  {
    ItoaSize(640); ItoaSize(360);
    ThumbnailExample(s, head, Some(ThumbnailUrlOptions(640, 360)), 640, 360, "640", "360", "640x360.jpg");
  }

  lemma ThumbnailWidthOnly(s: Stream, head: string)
    requires '{' !in head && s.thumbnailURL == head + "{width}x{height}.jpg"
    ensures s.GetThumbnailUrl(Some(ThumbnailUrlOptions(1280, 0))) == head + "1280x1080.jpg"
  {
    ItoaSize(1280); ItoaSize(1080);
    ThumbnailExample(s, head, Some(ThumbnailUrlOptions(1280, 0)), 1280, 1080, "1280", "1080", "1280x1080.jpg");
  }

  lemma ThumbnailHeightOnly(s: Stream, head: string)
    requires '{' !in head && s.thumbnailURL == head + "{width}x{height}.jpg"
    ensures s.GetThumbnailUrl(Some(ThumbnailUrlOptions(0, 720))) == head + "1920x720.jpg"
  {
    ItoaSize(1920); ItoaSize(720);
    ThumbnailExample(s, head, Some(ThumbnailUrlOptions(0, 720)), 1920, 720, "1920", "720", "1920x720.jpg");
  }

  /** The decimal texts of the sizes the tests use. */
  lemma ItoaSize(n: int)
    requires n in {360, 640, 720, 1080, 1280, 1920}
    ensures Itoa(n) == if n == 360 then "360" else if n == 640 then "640" else if n == 720 then "720"
      else if n == 1080 then "1080" else if n == 1280 then "1280" else "1920"
  {
  }

  lemma ThumbnailExample(s: Stream, head: string, options: Option<ThumbnailUrlOptions>, w: int, h: int,
                         width: string, height: string, tail: string)
    requires '{' !in head && s.thumbnailURL == head + "{width}x{height}.jpg"
    requires Size(options) == (w, h) && Itoa(w) == width && Itoa(h) == height
    requires tail == width + "x" + height + ".jpg"
    ensures s.GetThumbnailUrl(options) == head + tail
  {
    TestTemplateWF(head);
    TestTemplatePrint(head);
    TestTemplateRender(head, w, h);
    ThumbnailRendersTemplate(s, TestTemplate(head), options);
  }
}
