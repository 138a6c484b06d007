/** The state logic of the `accessibility-contrast-calculator` element: the
    normalisation of colour strings and the two colour slots (background and
    foreground), each a colour picker plus the hex text field that mirrors it. */
module ContrastCalculator {
  import opened Wrappers
  import opened JsStrings
  import opened Hex
  import ColorUtils

  // ---------------------------------------------------------------------------
  // #normalizeHex
  // ---------------------------------------------------------------------------

  /** `h || ''`: an absent value reads as the empty string. */
  function OrEmpty(h: Option<string>): string {
    if h.Some? then h.value else ""
  }

  /** The pattern `/^#([A-Fa-f0-9]{3})$/`. */
  predicate IsShortForm(p: string) {
    |p| == 4 && p[0] == '#' && AllHex(p[1..])
  }

  /** The pattern `/^#([A-Fa-f0-9]{6})$/`. */
  predicate IsLongForm(p: string) {
    |p| == 7 && p[0] == '#' && AllHex(p[1..])
  }

  const Black: string := "#000000"

  /** `#normalizeHex`: trim, prefix a missing `#`, expand a three-digit
      shorthand digit by digit, and lower-case a six-digit colour; anything
      else becomes black. The result is always a canonical colour. */
  function NormalizeHex(h: Option<string>): (r: string)
    ensures IsCanonicalColor(r)
  {
    Canonicalize(WithHash(Trim(OrEmpty(h))))
  }

  /** `if (!h.startsWith('#')) h = '#' + h` */
  function WithHash(t: string): (p: string)
    ensures |p| > 0 && p[0] == '#'
    ensures p == t || p == "#" + t
  {
    if |t| > 0 && t[0] == '#' then t else "#" + t
  }

  /** The rest of `#normalizeHex`, once the string starts with `#`. */
  function Canonicalize(p: string): (r: string)
    ensures IsCanonicalColor(r)
  {
    var e := ExpandShortForm(p);
    if IsLongForm(e) then
      LowerLongFormIsCanonical(e);
      LowerString(e)
    else Black
  }

  /** A shorthand `#abc` becomes `#aabbcc`; anything else is kept. */
  function ExpandShortForm(p: string): (e: string)
    ensures IsShortForm(p) ==> IsLongForm(e)
  {
    if IsShortForm(p) then
      assert forall i :: 1 <= i < 4 ==> IsHexDigit(p[i]) by {
        forall i | 1 <= i < 4 ensures IsHexDigit(p[i]) { assert p[1..][i - 1] == p[i]; }
      }
      var e := ['#', p[1], p[1], p[2], p[2], p[3], p[3]];
      assert e[1..] == [p[1], p[1], p[2], p[2], p[3], p[3]];
      e
    else p
  }

  /** Lower-casing a six-digit colour gives a canonical colour. */
  lemma LowerLongFormIsCanonical(e: string)
    requires IsLongForm(e)
    ensures IsCanonicalColor(LowerString(e))
  {
    var l := LowerString(e);
    forall i | 1 <= i < 7 ensures IsLowerHexDigit(l[i]) {
      assert e[1..][i - 1] == e[i];
      LowerCharOfDigit(e[i]);
    }
  }

  /** `toLowerCase` keeps a leading `#`. */
  lemma LowerStringWithHash(d: string)
    ensures LowerString("#" + d) == "#" + LowerString(d)
  {
    assert LowerString("#" + d) == [LowerChar('#')] + LowerString(("#" + d)[1..]);
    assert ("#" + d)[1..] == d;
  }

  /** Six hex digits after `#` are lower-cased. */
  lemma CanonicalizeLong(d: string)
    requires |d| == 6 && AllHex(d)
    ensures Canonicalize("#" + d) == "#" + LowerString(d)
  {
    assert ("#" + d)[1..] == d;
    LowerStringWithHash(d);
  }

  /** Three hex digits after `#` are each doubled and lower-cased. */
  lemma CanonicalizeShort(d: string)
    requires |d| == 3 && AllHex(d)
    ensures Canonicalize("#" + d) == ['#', LowerChar(d[0]), LowerChar(d[0]), LowerChar(d[1]),
                                      LowerChar(d[1]), LowerChar(d[2]), LowerChar(d[2])]
  {
    var p := "#" + d;
    assert p[1..] == d;
    var e := ExpandShortForm(p);
    assert e == ['#', d[0], d[0], d[1], d[1], d[2], d[2]];
    assert IsLongForm(e);
    var l := LowerString(e);
    assert l[0] == '#';
  }

  /** Anything but three or six hex digits after `#` becomes black. */
  lemma CanonicalizeOther(d: string)
    requires !((|d| == 3 || |d| == 6) && AllHex(d))
    ensures Canonicalize("#" + d) == Black
  {
    var p := "#" + d;
    assert p[1..] == d;
    assert !IsShortForm(p);
    assert !IsLongForm(p);
  }

  /** What `Canonicalize` makes of `#` followed by the digits `d`. */
  lemma CanonicalizeCases(d: string)
    ensures |d| == 6 && AllHex(d) ==> Canonicalize("#" + d) == "#" + LowerString(d)
    ensures |d| == 3 && AllHex(d) ==>
      Canonicalize("#" + d) == ['#', LowerChar(d[0]), LowerChar(d[0]), LowerChar(d[1]),
                                LowerChar(d[1]), LowerChar(d[2]), LowerChar(d[2])]
    ensures !((|d| == 3 || |d| == 6) && AllHex(d)) ==> Canonicalize("#" + d) == Black
  {
    if |d| == 6 && AllHex(d) {
      CanonicalizeLong(d);
    } else if |d| == 3 && AllHex(d) {
      CanonicalizeShort(d);
    } else {
      CanonicalizeOther(d);
    }
  }

  /** The digits the input offers: the trimmed text without a leading `#`. */
  function Digits(h: Option<string>): string {
    WithHash(Trim(OrEmpty(h)))[1..]
  }

  lemma NormalizeByDigits(h: Option<string>)
    ensures NormalizeHex(h) == Canonicalize("#" + Digits(h))
  {
    var p := WithHash(Trim(OrEmpty(h)));
    assert p == "#" + p[1..];
  }

  /** Six hex digits, in either case, become `#` and the six digits lower-cased. */
  lemma NormalizeLongForm(h: Option<string>)
    requires |Digits(h)| == 6 && AllHex(Digits(h))
    ensures NormalizeHex(h) == "#" + LowerString(Digits(h))
  {
    NormalizeByDigits(h);
    CanonicalizeCases(Digits(h));
  }

  /** Three hex digits, in either case, become each digit twice, lower-cased. */
  lemma NormalizeShortForm(h: Option<string>)
    requires |Digits(h)| == 3 && AllHex(Digits(h))
    ensures var d := Digits(h);
      NormalizeHex(h) == ['#', LowerChar(d[0]), LowerChar(d[0]), LowerChar(d[1]),
                          LowerChar(d[1]), LowerChar(d[2]), LowerChar(d[2])]
  {
    NormalizeByDigits(h);
    CanonicalizeCases(Digits(h));
  }

  /** Anything that is not three or six hex digits after trimming and an
      optional `#` becomes black. */
  lemma NormalizeFallback(h: Option<string>)
    requires !((|Digits(h)| == 3 || |Digits(h)| == 6) && AllHex(Digits(h)))
    ensures NormalizeHex(h) == Black
  {
    NormalizeByDigits(h);
    CanonicalizeCases(Digits(h));
  }

  /** A canonical colour is its own normal form. */
  lemma NormalizeCanonical(s: string)
    requires IsCanonicalColor(s)
    ensures NormalizeHex(Some(s)) == s
  {
    TrimUnpadded(s);
    assert Digits(Some(s)) == s[1..];
    assert s == "#" + s[1..];
    NormalizeLongForm(Some(s));
    LowerStringOfCanonical(s);
    LowerStringWithHash(s[1..]);
  }

  /** Normalising twice is normalising once. */
  lemma NormalizeIdempotent(h: Option<string>)
    ensures NormalizeHex(Some(NormalizeHex(h))) == NormalizeHex(h)
  {
    NormalizeCanonical(NormalizeHex(h));
  }

  /** White space around the input does not change its normal form. */
  lemma NormalizeIgnoresPadding(pre: string, s: string, post: string)
    requires forall i :: 0 <= i < |pre| ==> IsJsSpace(pre[i])
    requires forall i :: 0 <= i < |post| ==> IsJsSpace(post[i])
    ensures NormalizeHex(Some(pre + s + post)) == NormalizeHex(Some(s))
  {
    TrimIgnoresPadding(pre, s, post);
  }

  lemma HexIgnoresCase(x: char, y: char)
    requires LowerChar(x) == LowerChar(y)
    ensures IsHexDigit(x) <==> IsHexDigit(y)
    ensures x == '#' <==> y == '#'
  {
  }

  /** Digit strings that differ only in case canonicalise alike. */
  lemma CanonicalizeIgnoresCase(d1: string, d2: string)
    requires SameUpToCase(d1, d2)
    ensures Canonicalize("#" + d1) == Canonicalize("#" + d2)
  {
    forall i | 0 <= i < |d1| ensures IsHexDigit(d1[i]) <==> IsHexDigit(d2[i]) {
      HexIgnoresCase(d1[i], d2[i]);
    }
    CanonicalizeCases(d1);
    CanonicalizeCases(d2);
    if |d1| == 6 && AllHex(d1) {
      assert LowerString(d1) == LowerString(d2);
    }
  }

  /** Inputs that differ only in the case of their letters have the same normal form. */
  lemma NormalizeIgnoresCase(s: string, t: string)
    requires SameUpToCase(s, t)
    ensures NormalizeHex(Some(s)) == NormalizeHex(Some(t))
  {
    TrimIgnoresCase(s, t);
    var ts, tt := Trim(s), Trim(t);
    if |ts| > 0 {
      HexIgnoresCase(ts[0], tt[0]);
    }
    var ds, dt := Digits(Some(s)), Digits(Some(t));
    assert SameUpToCase(ds, dt) by {
      if |ts| > 0 && ts[0] == '#' {
        assert ds == ts[1..] && dt == tt[1..];
        forall i | 0 <= i < |ds| ensures LowerChar(ds[i]) == LowerChar(dt[i]) {
          assert ds[i] == ts[i + 1] && dt[i] == tt[i + 1];
        }
      } else {
        assert ("#" + ts)[1..] == ts && ("#" + tt)[1..] == tt;
      }
    }
    NormalizeByDigits(Some(s));
    NormalizeByDigits(Some(t));
    CanonicalizeIgnoresCase(ds, dt);
  }

  /** What the normaliser returns is what `ColorUtils.luminance` accepts. */
  lemma NormalizeFeedsLuminance(h: Option<string>)
    ensures ColorUtils.IsLuminanceInput(NormalizeHex(h))
  {
    ColorUtils.CanonicalIsLuminanceInput(NormalizeHex(h));
  }

  /** A string that neither starts nor ends with white space trims to itself. */
  lemma TrimUnpadded(s: string)
    requires s != [] ==> !IsJsSpace(s[0]) && !IsJsSpace(s[|s| - 1])
    ensures Trim(s) == s
  {
    assert IsTrimAt(s, s, 0);
    TrimIsTrimOf(s);
    TrimOfUnique(s, s, Trim(s));
  }

  /** The digits of an input without surrounding white space. */
  lemma DigitsOfUnpadded(s: string)
    requires s != [] ==> !IsJsSpace(s[0]) && !IsJsSpace(s[|s| - 1])
    ensures Digits(Some(s)) == if |s| > 0 && s[0] == '#' then s[1..] else s
  {
    TrimUnpadded(s);
    assert ("#" + s)[1..] == s;
  }

  // The examples below are sample inputs: null and empty input,
  // non-hex letters and a two-digit string fall back to black; shorthand
  // expands with or without `#`; a canonical colour is kept; surrounding
  // white space and upper case are ignored.

  lemma ExampleNull()
    ensures NormalizeHex(None) == Black
  {
    DigitsOfUnpadded("");
    assert Digits(None) == Digits(Some(""));
    NormalizeFallback(None);
  }

  lemma ExampleEmpty()
    ensures NormalizeHex(Some("")) == Black
  {
    DigitsOfUnpadded("");
    NormalizeFallback(Some(""));
  }

  lemma ExampleNonHex()
    ensures NormalizeHex(Some("zzzzzz")) == Black
  {
    DigitsOfUnpadded("zzzzzz");
    assert !IsHexDigit(Digits(Some("zzzzzz"))[0]);
    NormalizeFallback(Some("zzzzzz"));
  }

  lemma ExampleTwoDigits()
    ensures NormalizeHex(Some("#12")) == Black
  {
    DigitsOfUnpadded("#12");
    NormalizeFallback(Some("#12"));
  }

  lemma ExampleShorthand()
    ensures NormalizeHex(Some("abc")) == "#aabbcc"
  {
    DigitsOfUnpadded("abc");
    NormalizeShortForm(Some("abc"));
  }

  lemma ExampleHashShorthand()
    ensures NormalizeHex(Some("#fff")) == "#ffffff"
  {
    DigitsOfUnpadded("#fff");
    assert "#fff"[1..] == "fff";
    NormalizeShortForm(Some("#fff"));
  }

  lemma ExampleCanonical()
    ensures NormalizeHex(Some("#ffffff")) == "#ffffff"
  {
    NormalizeCanonical("#ffffff");
  }

  lemma ExampleUpper()
    ensures NormalizeHex(Some("#ABC")) == "#aabbcc"
  {
    DigitsOfUnpadded("#ABC");
    assert "#ABC"[1..] == "ABC";
    NormalizeShortForm(Some("#ABC"));
  }

  lemma ExamplePadded()
    ensures NormalizeHex(Some(" " + "#ABC" + "\n")) == "#aabbcc"
  {
    NormalizeIgnoresPadding(" ", "#ABC", "\n");
    ExampleUpper();
  }

  // ---------------------------------------------------------------------------
  // The colour picker
  // ---------------------------------------------------------------------------

  /** The value sanitisation of an `<input type="color">` (HTML Living
      Standard, the Color state of the input element): a valid simple colour
      is kept, lower-cased; anything else becomes black (with the first
      ensures, the last one pins the result to `#000000`). */
  function SanitizeColor(v: string): (r: string)
    ensures IsCanonicalColor(r)
    ensures IsCanonicalColor(v) ==> r == v
    ensures IsLongForm(v) ==> r == NormalizeHex(Some(v))
    ensures !IsLongForm(v) ==> forall i :: 1 <= i < 7 ==> r[i] == '0'
  {
    if IsLongForm(v) then
      NormalizeLongFormOfPattern(v);
      LowerString(v)
    else Black
  }

  lemma NormalizeLongFormOfPattern(v: string)
    requires IsLongForm(v)
    ensures NormalizeHex(Some(v)) == LowerString(v)
    ensures IsCanonicalColor(v) ==> LowerString(v) == v
  {
    if IsCanonicalColor(v) { LowerStringOfCanonical(v); }
    TrimUnpadded(v);
    assert Digits(Some(v)) == v[1..];
    NormalizeLongForm(Some(v));
    assert v == "#" + v[1..];
    assert LowerString(v) == [LowerChar('#')] + LowerString(v[1..]);
  }

  /** A three-digit shorthand such as `#fff` is not a valid simple colour, so
      the colour input's valid-simple-colour sanitisation turns it into black,
      while `#normalizeHex` expands it. An initial `bg="#fff"` therefore leaves
      the picker black, but the same value set later through the attribute
      gives `#ffffff`. */
  lemma ShorthandSanitizedToBlack(v: string)
    requires IsShortForm(v)
    ensures SanitizeColor(v) == Black
    ensures var d := v[1..];
      NormalizeHex(Some(v)) == ['#', LowerChar(d[0]), LowerChar(d[0]), LowerChar(d[1]),
                                LowerChar(d[1]), LowerChar(d[2]), LowerChar(d[2])]
  {
    var r := SanitizeColor(v);
    assert r == Black by {
      assert |r| == |Black| && forall i :: 0 <= i < 7 ==> r[i] == Black[i];
    }
    TrimUnpadded(v);
    assert Digits(Some(v)) == v[1..];
    NormalizeShortForm(Some(v));
  }

  lemma ShorthandWhite()
    ensures SanitizeColor("#fff") == Black
    ensures NormalizeHex(Some("#fff")) == "#ffffff"
  {
    ShorthandSanitizedToBlack("#fff");
  }

  // ---------------------------------------------------------------------------
  // The two colour slots
  // ---------------------------------------------------------------------------

  datatype Slot = Background | Foreground

  /** Picker values and hex text values of the two slots. */
  datatype Slots = Slots(bgPicker: string, fgPicker: string, bgHex: string, fgHex: string)

  /** What `swap` leaves: the picker values exchanged, each text field showing its picker. */
  function Swapped(s: Slots): Slots {
    Slots(s.fgPicker, s.bgPicker, s.fgPicker, s.bgPicker)
  }

  /** Each text field shows its picker's value. */
  predicate InSync(s: Slots) {
    s.bgHex == s.bgPicker && s.fgHex == s.fgPicker
  }

  /** Swapping twice restores both pickers, and restores the whole state
      exactly when the text fields were showing their pickers. */
  lemma SwapTwice(s: Slots)
    ensures InSync(Swapped(s))
    ensures Swapped(Swapped(s)).bgPicker == s.bgPicker && Swapped(Swapped(s)).fgPicker == s.fgPicker
    ensures Swapped(Swapped(s)) == s <==> InSync(s)
  {
  }

  const DefaultBackground: string := "#ca8b8a"
  const DefaultForeground: string := "#010000"

  /** `getAttribute(name) || fallback`: an absent or empty attribute reads as the fallback. */
  function AttributeOr(attr: Option<string>, fallback: string): string {
    if attr.Some? && attr.value != "" then attr.value else fallback
  }

  /** The slots after the first connection: the pickers hold the `bg`/`fg`
      attributes (or the defaults) as the colour inputs sanitise them, and the
      text fields hold them as written. The attributes are pasted unescaped
      into the element's markup, so this holds for values without `"`, `&` or
      line breaks. */
  function InitialSlots(bgAttr: Option<string>, fgAttr: Option<string>): (s: Slots)
    ensures IsCanonicalColor(s.bgPicker) && IsCanonicalColor(s.fgPicker)
    ensures s.bgHex == AttributeOr(bgAttr, DefaultBackground)
    ensures s.fgHex == AttributeOr(fgAttr, DefaultForeground)
    ensures s.bgPicker == SanitizeColor(s.bgHex) && s.fgPicker == SanitizeColor(s.fgHex)
  {
    var initBg, initFg := AttributeOr(bgAttr, DefaultBackground), AttributeOr(fgAttr, DefaultForeground);
    Slots(SanitizeColor(initBg), SanitizeColor(initFg), initBg, initFg)
  }

  /** The element's colour state. The text fields' `is-invalid` marks are
      `bgInvalid` and `fgInvalid`. */
  class Calculator {
    var initialized: bool
    var bgPicker: string
    var fgPicker: string
    var bgHex: string
    var fgHex: string
    var bgInvalid: bool
    var fgInvalid: bool

    /** Once connected, both pickers hold canonical colours; no text field is
        ever marked invalid. */
    ghost predicate Valid()
      reads this
    {
      (initialized ==> IsCanonicalColor(bgPicker) && IsCanonicalColor(fgPicker))
      && !bgInvalid && !fgInvalid
    }

    function State(): Slots
      reads this
    {
      Slots(bgPicker, fgPicker, bgHex, fgHex)
    }

    /** A new element is not yet initialised and has no inputs yet. */
    constructor ()
      ensures Valid() && !initialized
      ensures State() == Slots("", "", "", "")
    {
      initialized := false;
      bgPicker, fgPicker, bgHex, fgHex := "", "", "", "";
      bgInvalid, fgInvalid := false, false;
    }

    /** `connectedCallback`, its state part: on the first connection the
        pickers take the `bg`/`fg` attributes (or the defaults) as sanitised by
        the colour inputs, and the text fields take them as written. */
    method ConnectedCallback(bgAttr: Option<string>, fgAttr: Option<string>)
      requires Valid()
      modifies this
      ensures Valid() && initialized
      ensures old(initialized) ==> State() == old(State())
      ensures !old(initialized) ==> State() == InitialSlots(bgAttr, fgAttr)
    {
      if initialized {
        return;
      }
      initialized := true;
      var init := InitialSlots(bgAttr, fgAttr);
      bgPicker, fgPicker, bgHex, fgHex := init.bgPicker, init.fgPicker, init.bgHex, init.fgHex;
    }

    /** `attributeChangedCallback`: before initialisation, or when the value
        did not change, nothing happens; otherwise the named slot's picker and
        text field both take the normalised new value and the other slot is
        left alone. */
    method AttributeChangedCallback(name: string, oldVal: Option<string>, newVal: Option<string>)
      requires Valid()
      modifies this
      ensures Valid() && initialized == old(initialized)
      ensures !initialized || oldVal == newVal || (name != "bg" && name != "fg") ==> State() == old(State())
      ensures initialized && oldVal != newVal && name == "bg" ==>
        State() == old(State()).(bgPicker := NormalizeHex(newVal), bgHex := NormalizeHex(newVal))
      ensures initialized && oldVal != newVal && name == "fg" ==>
        State() == old(State()).(fgPicker := NormalizeHex(newVal), fgHex := NormalizeHex(newVal))
    {
      if !initialized || oldVal == newVal {
        return;
      }
      if name == "bg" {
        var v := NormalizeHex(newVal);
        bgPicker := v;
        bgHex := v;
      } else if name == "fg" {
        var v := NormalizeHex(newVal);
        fgPicker := v;
        fgHex := v;
      }
    }

    /** `swap`: exchange the two picker values; each text field then shows its picker. */
    method Swap()
      requires Valid() && initialized
      modifies this
      ensures Valid() && initialized
      ensures State() == Swapped(old(State()))
    {
      var bg, fg := bgPicker, fgPicker;
      bgPicker := fg;
      fgPicker := bg;
      bgHex := fg;
      fgHex := bg;
    }

    /** `#validateHex`, run when a text field loses focus: the slot's picker
        takes the normalised text; the text itself stays as typed. The
        `is-invalid` branch is dead, since the normaliser only returns
        canonical colours. */
    method ValidateHex(slot: Slot)
      requires Valid() && initialized
      modifies this
      ensures Valid() && initialized
      ensures !bgInvalid && !fgInvalid
      ensures slot == Background ==> State() == old(State()).(bgPicker := NormalizeHex(Some(old(bgHex))))
      ensures slot == Foreground ==> State() == old(State()).(fgPicker := NormalizeHex(Some(old(fgHex))))
    {
      var text := if slot == Background then bgHex else fgHex;
      var v := NormalizeHex(Some(text));
      if IsCanonicalColor(v) {
        if slot == Background {
          bgInvalid := false;
          bgPicker := v;
        } else {
          fgInvalid := false;
          fgPicker := v;
        }
      } else {
        // The source marks the text field `is-invalid` here; the branch is dead.
        assert false;
      }
    }

    /** The pickers' `input` handlers: the picker takes the chosen colour, as
        the colour input sanitises it, and its text field shows it. */
    method PickerInput(slot: Slot, chosen: string)
      requires Valid() && initialized
      modifies this
      ensures Valid() && initialized
      ensures slot == Background ==>
        State() == old(State()).(bgPicker := SanitizeColor(chosen), bgHex := SanitizeColor(chosen))
      ensures slot == Foreground ==>
        State() == old(State()).(fgPicker := SanitizeColor(chosen), fgHex := SanitizeColor(chosen))
    {
      var v := SanitizeColor(chosen);
      if slot == Background {
        bgPicker := v;
        bgHex := v;
      } else {
        fgPicker := v;
        fgHex := v;
      }
    }
  }

  /** Connecting an element with `bg="#fff"` leaves its background picker
      black (the colour input's valid-simple-colour sanitisation) while its
      text field shows `#fff`; a later change of the attribute to `#fff` from
      another value sets both to `#ffffff`. */
  method ShorthandOnConnectAndChange(c: Calculator, oldBg: Option<string>)
    requires c.Valid() && !c.initialized && oldBg != Some("#fff")
    modifies c
    ensures c.Valid() && c.initialized
  {
    c.ConnectedCallback(Some("#fff"), None);
    ShorthandWhite();
    assert c.bgPicker == Black && c.bgHex == "#fff";
    c.AttributeChangedCallback("bg", oldBg, Some("#fff"));
    assert c.bgPicker == "#ffffff" && c.bgHex == "#ffffff";
  }

  /** Pressing the swap button twice on an element whose text fields show
      their pickers leaves the element as it was. */
  method SwapTwiceRestores(c: Calculator)
    requires c.Valid() && c.initialized && InSync(c.State())
    modifies c
    ensures c.Valid() && c.State() == old(c.State())
  {
    c.Swap();
    c.Swap();
    SwapTwice(old(c.State()));
  }
}
