/**
 * The decision logic of the card maker (Mythblitz/Assets/cardmaker/script.js):
 * what text, classes, image paths and visibility flags the DOM code writes.
 * Form numbers are whole numbers or NaN. The DOM reads and writes themselves
 * are inputs and outputs.
 */
module CardMaker {
  import opened Common

  // ---------------------------------------------------------------------------
  // Numbers

  /** A JavaScript number read from a form field (`Number(value)`): NaN or a whole number. */
  datatype Number = NaN | Num(value: int)

  function Min(a: int, b: int): int { if a <= b then a else b }
  function Max(a: int, b: int): int { if a >= b then a else b }

  /** `clampNumber(value, min, max)`: `Math.max(min, Math.min(max, n))`, and `min` for NaN. */
  function ClampNumber(v: Number, min: int, max: int): (r: int)
    ensures v.NaN? ==> r == min
    ensures v.Num? && min <= max ==> min <= r <= max
    ensures v.Num? && min <= v.value <= max ==> r == v.value
    ensures v.Num? && v.value < min ==> r == min
    ensures v.Num? && max < v.value && min <= max ==> r == max
  {
    match v
    case NaN => min
    case Num(n) => Max(min, Min(max, n))
  }

  /** `Number(x) || 0`: NaN (falsy) becomes 0. */
  function OrZero(v: Number): (r: int)
    ensures v.Num? ==> r == v.value
    ensures v.NaN? ==> r == 0
  {
    if v.Num? then v.value else 0
  }

  predicate IsDigit(c: char) { '0' <= c <= '9' }

  predicate AllDigits(s: string) {
    forall i :: 0 <= i < |s| ==> IsDigit(s[i])
  }

  function DigitChar(d: nat): (c: char)
    requires d < 10
    ensures IsDigit(c) && c as int - '0' as int == d
  {
    (d + '0' as int) as char
  }

  /** The decimal digits of n, without leading zeros: what `String(n)` prints for a whole n >= 0. */
  function Digits(n: nat): (s: string)
    ensures |s| > 0 && AllDigits(s)
    ensures s[0] == '0' ==> n == 0
    ensures n < 10 <==> |s| == 1
    decreases n
  {
    if n < 10 then [DigitChar(n)] else Digits(n / 10) + [DigitChar(n % 10)]
  }

  /** The value of a string of decimal digits: the reading of `Digits` back. */
  function DigitsValue(s: string): nat
    requires AllDigits(s)
    decreases |s|
  {
    if s == [] then 0 else DigitsValue(s[..|s| - 1]) * 10 + (s[|s| - 1] as int - '0' as int)
  }

  lemma {:induction false} DigitsRoundTrip(n: nat)
    ensures DigitsValue(Digits(n)) == n
    decreases n
  {
    if n >= 10 {
      var s := Digits(n);
      assert s[..|s| - 1] == Digits(n / 10);
      DigitsRoundTrip(n / 10);
    }
  }

  lemma {:induction false} DigitsLength(n: nat)
    ensures n < 100 ==> |Digits(n)| <= 2
  {
    if n >= 10 {
      DigitsLength(n / 10);
    }
  }

  /** `String(num)`. */
  function NumberText(v: Number): (t: string)
    ensures v.NaN? ==> t == "NaN"
    ensures v.Num? ==> |t| > 0 && (t[0] == '-' <==> v.value < 0)
  {
    match v
    case NaN => "NaN"
    case Num(n) => if n < 0 then "-" + Digits(-n) else Digits(n)
  }

  /** An optional sign followed by digits. */
  predicate SignedDigits(t: string) {
    t != [] && if t[0] == '-' || t[0] == '+' then AllDigits(t[1..]) else AllDigits(t)
  }

  /** Reading a signed decimal back (`Number(t)` for an optional sign and digits). */
  function TextValue(t: string): int
    requires SignedDigits(t)
  {
    if t[0] == '-' then -(DigitsValue(t[1..]) as int)
    else if t[0] == '+' then DigitsValue(t[1..])
    else DigitsValue(t)
  }

  lemma NumberTextRoundTrip(n: int)
    ensures SignedDigits(NumberText(Num(n))) && TextValue(NumberText(Num(n))) == n
  {
    var t := NumberText(Num(n));
    if n < 0 {
      assert t[1..] == Digits(-n);
      DigitsRoundTrip(-n);
    } else {
      assert t == Digits(n);
      DigitsRoundTrip(n);
    }
  }

  /** `formatSignedNumber(n)`: `Number(n) || 0`, then a `+` before zero and positive values. */
  function FormatSignedNumber(n: Number): (t: string)
    ensures n.NaN? ==> t == "+0"
    ensures n.Num? && n.value >= 0 ==> t == "+" + NumberText(n)
    ensures n.Num? && n.value < 0 ==> t == NumberText(n)
    ensures t[0] == '+' || t[0] == '-'
  {
    var num := OrZero(n);
    if num >= 0 then "+" + Digits(num) else "-" + Digits(-num)
  }

  /** The signed text reads back as the number (NaN as 0). */
  lemma FormatSignedRoundTrip(n: Number)
    ensures SignedDigits(FormatSignedNumber(n)) && TextValue(FormatSignedNumber(n)) == OrZero(n)
  {
    var num := OrZero(n);
    var t := FormatSignedNumber(n);
    if num >= 0 {
      assert t[1..] == Digits(num);
      DigitsRoundTrip(num);
    } else {
      assert t[1..] == Digits(-num);
      DigitsRoundTrip(-num);
    }
  }

  // ---------------------------------------------------------------------------
  // Strings

  /** `String.prototype.trim`'s set: the WhiteSpace and LineTerminator code points of ECMAScript. */
  predicate IsWhite(c: char) {
    || c == ' ' || c == '\t' || c == '\n' || c == '\r'
    || c == '\U{000B}' || c == '\U{000C}' || c == '\U{00A0}' || c == '\U{1680}'
    || ('\U{2000}' <= c <= '\U{200A}')
    || c == '\U{2028}' || c == '\U{2029}' || c == '\U{202F}' || c == '\U{205F}'
    || c == '\U{3000}' || c == '\U{FEFF}'
  }

  predicate AllWhite(s: string) {
    forall i :: 0 <= i < |s| ==> IsWhite(s[i])
  }

  /** The first index at or after `i` that holds no white space (or |s|). */
  function SkipWhite(s: string, i: nat): (k: nat)
    requires i <= |s|
    ensures i <= k <= |s| && (k < |s| ==> !IsWhite(s[k]))
    ensures forall j :: i <= j < k ==> IsWhite(s[j])
    decreases |s| - i
  {
    if i < |s| && IsWhite(s[i]) then SkipWhite(s, i + 1) else i
  }

  /** The end of `s[lo..hi]` once its trailing white space is dropped. */
  function DropWhiteEnd(s: string, lo: nat, hi: nat): (k: nat)
    requires lo <= hi <= |s|
    ensures lo <= k <= hi && (k > lo ==> !IsWhite(s[k - 1]))
    ensures forall j :: k <= j < hi ==> IsWhite(s[j])
    decreases hi - lo
  {
    if hi > lo && IsWhite(s[hi - 1]) then DropWhiteEnd(s, lo, hi - 1) else hi
  }

  /** `s.trim()`: the slice of `s` between its leading and trailing white space. */
  function Trim(s: string): (t: string)
    ensures var lo := SkipWhite(s, 0);
      && lo + |t| <= |s| && t == s[lo..lo + |t|]
      && (forall j :: 0 <= j < lo ==> IsWhite(s[j]))
      && (forall j :: lo + |t| <= j < |s| ==> IsWhite(s[j]))
    ensures t == [] || (!IsWhite(t[0]) && !IsWhite(t[|t| - 1]))
    ensures t == [] <==> AllWhite(s)
  {
    var lo := SkipWhite(s, 0);
    var hi := DropWhiteEnd(s, lo, |s|);
    s[lo..hi]
  }

  predicate IsUpper(c: char) { 'A' <= c <= 'Z' }

  function LowerChar(c: char): (d: char)
    ensures !IsUpper(d)
    ensures IsUpper(c) ==> d as int == c as int + 32
    ensures !IsUpper(c) ==> d == c
  {
    if IsUpper(c) then (c as int + 32) as char else c
  }

  /** `s.toLowerCase()` on the ASCII letters. */
  function AsciiLower(s: string): (t: string)
    ensures |t| == |s|
    decreases |s|
  {
    if s == [] then [] else [LowerChar(s[0])] + AsciiLower(s[1..])
  }

  /** Lowering works character by character: each capital becomes its small letter, the rest stay. */
  lemma {:induction false} AsciiLowerChars(s: string)
    ensures forall i :: 0 <= i < |s| ==> AsciiLower(s)[i] == LowerChar(s[i])
    decreases |s|
  {
    if s != [] {
      AsciiLowerChars(s[1..]);
      forall i | 0 <= i < |s| ensures AsciiLower(s)[i] == LowerChar(s[i]) {
        if i > 0 {
          assert AsciiLower(s)[i] == AsciiLower(s[1..])[i - 1];
        }
      }
    }
  }

  // ---------------------------------------------------------------------------
  // Rarity

  datatype GemShape = Diamond | AltGem

  /** The gradient stops and gem shape of a rarity. */
  datatype RarityStyle = RarityStyle(a: string, b: string, shape: GemShape)

  const KnownRarities: seq<string> := ["Common", "Uncommon", "Rare", "Epic", "Legendary", "Alt Art"]
  const RareStyle: RarityStyle := RarityStyle("#60a5fa", "#1d4ed8", Diamond)

  /** `rarityToClass`. */
  function RarityToClass(rarity: string): (c: string)
    ensures c == "rarity-alt" || c == "rarity-std"
    ensures c == "rarity-alt" <==> rarity == "Alt Art"
  {
    if rarity == "Alt Art" then "rarity-alt" else "rarity-std"
  }

  /** `getRarityStyle`. */
  function GetRarityStyle(rarity: string): (st: RarityStyle)
    ensures st.shape == AltGem <==> rarity == "Alt Art"
    ensures rarity !in KnownRarities ==> st == RareStyle
    ensures rarity == "Rare" ==> st == RareStyle
  {
    if rarity == "Common" then RarityStyle("#9aa3ad", "#5c6672", Diamond)
    else if rarity == "Uncommon" then RarityStyle("#34d399", "#15803d", Diamond)
    else if rarity == "Rare" then RarityStyle("#60a5fa", "#1d4ed8", Diamond)
    else if rarity == "Epic" then RarityStyle("#f472b6", "#7c3aed", Diamond)
    else if rarity == "Legendary" then RarityStyle("#fb923c", "#f59e0b", Diamond)
    else if rarity == "Alt Art" then RarityStyle("#ff3b3b", "#2563eb", AltGem)
    else RarityStyle("#60a5fa", "#1d4ed8", Diamond)
  }

  /** What `syncText` and `renderRaritySvg` write for a rarity: classes, stop colours and `display` values. */
  datatype RarityView = RarityView(
    gemClass: string, stop1: string, stop2: string,
    diamond: string, diamondShine: string, alt: string, altShine: string, artFull: bool)

  function RenderRarity(rarity: string): (v: RarityView)
    ensures v.gemClass == "rarityGem " + RarityToClass(rarity)
    ensures v.stop1 == GetRarityStyle(rarity).a && v.stop2 == GetRarityStyle(rarity).b
    ensures v.diamond == v.diamondShine && v.alt == v.altShine
    ensures v.diamond in {"block", "none"} && v.alt in {"block", "none"} && v.diamond != v.alt
    ensures v.alt == "block" <==> GetRarityStyle(rarity).shape == AltGem
    ensures v.artFull <==> v.alt == "block"
  {
    var style := GetRarityStyle(rarity);
    var isAlt := style.shape == AltGem;
    RarityView(
      "rarityGem " + RarityToClass(rarity), style.a, style.b,
      if isAlt then "none" else "block", if isAlt then "none" else "block",
      if isAlt then "block" else "none", if isAlt then "block" else "none",
      rarity == "Alt Art")
  }

  /**
   * `syncText`'s rarity block: the gem's class names the rarity class, and the
   * art goes full-size exactly for 'Alt Art', which is exactly when the alt gem
   * (not the diamond) is shown.
   */
  lemma SyncRarity(rarity: string)
    ensures RenderRarity(rarity).gemClass == "rarityGem " + (if rarity == "Alt Art" then "rarity-alt" else "rarity-std")
    ensures RenderRarity(rarity).artFull <==> rarity == "Alt Art"
    ensures RenderRarity(rarity).artFull <==> RenderRarity(rarity).alt == "block" && RenderRarity(rarity).diamond == "none"
  {
  }

  // ---------------------------------------------------------------------------
  // Mana symbols

  const MaxPips: nat := 5

  /** One pip: the `div`'s class and the `img`'s alt text and source. */
  datatype Pip = Pip(className: string, alt: string, src: string)

  function PipFor(region: string): (p: Pip)
    ensures p.className == "manaSymbol manaRegion-" + region && p.alt == region
    ensures p.src == "img/" + AsciiLower(region) + ".png"
  {
    Pip("manaSymbol manaRegion-" + region, region, "img/" + AsciiLower(region) + ".png")
  }

  /** `String(list[i] || fallback)` with `list = regions.slice(0, 5)` and `fallback = list[0] || 'Arcane'`. */
  function PipRegion(regions: seq<string>, i: nat): (region: string)
    requires i < MaxPips
    ensures region != ""
    ensures i < |regions| && regions[i] != "" ==> region == regions[i]
    ensures (i >= |regions| || regions[i] == "") && |regions| > 0 && regions[0] != "" ==> region == regions[0]
    ensures (i >= |regions| || regions[i] == "") && (regions == [] || regions[0] == "") ==> region == "Arcane"
  {
    var list := if |regions| <= MaxPips then regions else regions[..MaxPips];
    var fallback := if |list| > 0 && list[0] != "" then list[0] else "Arcane";
    if i < |list| && list[i] != "" then list[i] else fallback
  }

  /** `renderManaSymbols({count, regions})`: the pips it appends, in order. */
  method RenderManaSymbols(count: Number, regions: seq<string>) returns (pips: seq<Pip>)
    ensures |pips| == ClampNumber(count, 0, MaxPips)
    ensures forall i :: 0 <= i < |pips| ==> pips[i] == PipFor(PipRegion(regions, i))
  {
    var n := ClampNumber(count, 0, MaxPips);
    var list := if |regions| <= MaxPips then regions else regions[..MaxPips];
    var fallback := if |list| > 0 && list[0] != "" then list[0] else "Arcane";
    pips := [];
    var i := 0;
    while i < n
      invariant 0 <= i <= n && |pips| == i
      invariant forall j :: 0 <= j < i ==> pips[j] == PipFor(PipRegion(regions, j))
    {
      var region := if i < |list| && list[i] != "" then list[i] else fallback;
      assert region == PipRegion(regions, i);
      var pip := Pip("manaSymbol manaRegion-" + region, region, "img/" + AsciiLower(region) + ".png");
      assert pip == PipFor(region);
      pips := pips + [pip];
      i := i + 1;
    }
  }

  /** One of the five symbol `<select>` elements: its value and its `isHidden` class. */
  class SymbolSelect {
    var value: string
    var hidden: bool

    constructor (value: string)
      ensures this.value == value && !hidden
    {
      this.value := value;
      hidden := false;
    }
  }

  /** Distinct elements, where `null` (a missing element) may repeat. */
  ghost predicate DistinctElements(s: seq<SymbolSelect?>) {
    forall i, j :: 0 <= i < j < |s| && s[i] != null ==> s[i] != s[j]
  }

  function SelectRegion(sel: SymbolSelect?): (region: string)
    reads sel
    ensures region != ""
    ensures sel != null && sel.value != "" ==> region == sel.value
    ensures sel == null || sel.value == "" ==> region == "Arcane"
  {
    if sel != null && sel.value != "" then sel.value else "Arcane"
  }

  /** `getSymbolRegions`: each select's value, or 'Arcane' for a missing or empty select. */
  function GetSymbolRegions(selects: seq<SymbolSelect?>): (regions: seq<string>)
    reads selects
    ensures |regions| == |selects|
    ensures forall i :: 0 <= i < |selects| ==> regions[i] == SelectRegion(selects[i])
    decreases |selects|
  {
    if selects == [] then [] else [SelectRegion(selects[0])] + GetSymbolRegions(selects[1..])
  }

  /** With the regions the wiring passes in, pip i shows exactly the region of select i. */
  lemma WiredPipRegion(selects: seq<SymbolSelect?>, i: nat)
    requires i < MaxPips && i < |selects|
    ensures PipRegion(GetSymbolRegions(selects), i) == SelectRegion(selects[i])
  {
  }

  /** `syncSymbolControls`: select i is hidden exactly when i >= clampNumber(count, 0, 5). */
  method SyncSymbolControls(count: Number, selects: seq<SymbolSelect?>)
    requires DistinctElements(selects)
    modifies selects
    ensures forall i :: 0 <= i < |selects| && selects[i] != null ==>
      selects[i].hidden == (i >= ClampNumber(count, 0, MaxPips)) && selects[i].value == old(selects[i].value)
  {
    var n := ClampNumber(count, 0, MaxPips);
    var i := 0;
    while i < |selects|
      invariant 0 <= i <= |selects|
      invariant forall j :: 0 <= j < i && selects[j] != null ==>
        selects[j].hidden == (j >= n) && selects[j].value == old(selects[j].value)
      invariant forall j :: i <= j < |selects| && selects[j] != null ==>
        selects[j].hidden == old(selects[j].hidden) && selects[j].value == old(selects[j].value)
    {
      var sel := selects[i];
      if sel != null {
        var active := i < n;
        sel.hidden := !active;
      }
      i := i + 1;
    }
  }

  // ---------------------------------------------------------------------------
  // Type and text

  /** What `syncTypeVisibility` writes: the `isHidden` flag of the stats fieldset and row, and the card's class. */
  datatype TypeView = TypeView(statsHidden: bool, cardClass: string)

  function SyncTypeVisibility(cardType: string): (v: TypeView)
    ensures !v.statsHidden <==> (cardType == "Unit" || cardType == "Gear")
    ensures v.cardClass == "card type-" + cardType
  {
    var showStats := cardType == "Unit" || cardType == "Gear";
    TypeView(!showStats, "card type-" + cardType)
  }

  /** The form values `syncText` reads. */
  datatype Form = Form(
    name: string, mana: Number, tags: string, desc: string,
    cardType: string, power: Number, health: Number)

  /** The texts `syncText` writes into the card preview. */
  datatype CardText = CardText(name: string, mana: string, tags: string, desc: string, damage: string, health: string)

  /** The stat number text: signed only for Gear. */
  function StatText(cardType: string, v: Number): (t: string)
    ensures cardType == "Gear" ==> t == FormatSignedNumber(v) && (t[0] == '+' || t[0] == '-')
    ensures cardType != "Gear" ==> t == NumberText(v)
  {
    if cardType == "Gear" then FormatSignedNumber(v) else NumberText(v)
  }

  function SyncText(f: Form): (t: CardText)
    ensures t.name == Trim(f.name) && t.tags == Trim(f.tags) && t.desc == Trim(f.desc)
    ensures t.mana == NumberText(Num(ClampNumber(f.mana, 0, 99)))
    ensures t.damage == StatText(f.cardType, f.power) && t.health == StatText(f.cardType, f.health)
  {
    CardText(
      Trim(f.name), NumberText(Num(ClampNumber(f.mana, 0, 99))), Trim(f.tags), Trim(f.desc),
      StatText(f.cardType, f.power), StatText(f.cardType, f.health))
  }

  /** The mana text is one or two digits and reads back as the clamped mana. */
  lemma ManaText(f: Form)
    ensures var m := SyncText(f).mana;
      1 <= |m| <= 2 && AllDigits(m) && DigitsValue(m) == ClampNumber(f.mana, 0, 99)
  {
    var n := ClampNumber(f.mana, 0, 99);
    DigitsLength(n);
    DigitsRoundTrip(n);
  }

  // ---------------------------------------------------------------------------
  // Dragging the art

  /** The drag state variables of `wire` (`isDraggingArt`, `dragStartX`, ..., `dragOrigY`). */
  class ArtDrag {
    var dragging: bool
    var startX: int
    var startY: int
    var origX: int
    var origY: int

    constructor ()
      ensures !dragging && startX == 0 && startY == 0 && origX == 0 && origY == 0
    {
      dragging := false;
      startX, startY, origX, origY := 0, 0, 0, 0;
    }

    /** `pointerdown`: only the primary button starts a drag, from the current X/Y inputs. */
    method PointerDown(button: int, clientX: int, clientY: int, artX: Number, artY: Number)
      modifies this
      ensures button != 0 ==> unchanged(this)
      ensures button == 0 ==> dragging && startX == clientX && startY == clientY
      ensures button == 0 ==> origX == OrZero(artX) && origY == OrZero(artY)
    {
      if button != 0 {
        return;
      }
      dragging := true;
      startX := clientX;
      startY := clientY;
      origX := OrZero(artX);
      origY := OrZero(artY);
    }

    /** `pointermove`: while dragging, the new X/Y input values are the origin plus the pointer's displacement. */
    method PointerMove(clientX: int, clientY: int) returns (moved: Option<(int, int)>)
      ensures moved.None? <==> !dragging
      ensures dragging ==> moved.value.0 - origX == clientX - startX && moved.value.1 - origY == clientY - startY
    {
      if !dragging {
        return None;
      }
      var dx := clientX - startX;
      var dy := clientY - startY;
      moved := Some((origX + dx, origY + dy));
    }

    /** `pointerup` / `pointercancel`. */
    method EndDrag()
      modifies this
      ensures !dragging
      ensures startX == old(startX) && startY == old(startY) && origX == old(origX) && origY == old(origY)
    {
      dragging := false;
    }
  }

  // ---------------------------------------------------------------------------
  // Border

  datatype Border = CustomBorder(url: string) | TypeBorder(path: string)

  /** The border `resolveBorder` shows (or, for a type border, tries to load) and the remove button's `display`. */
  datatype BorderView = BorderView(border: Border, removeButton: string)

  /** `customBorderURL`. */
  class BorderState {
    var customURL: Option<string>

    /** `let customBorderURL = null`: no upload yet, so every type shows its type border. */
    constructor ()
      ensures customURL == None
      ensures forall t :: Resolve(t).border == TypeBorder("img/" + AsciiLower(t) + "-border.png")
    {
      customURL := None;
    }

    /** `resolveBorder`'s choice: a truthy custom URL wins, otherwise `img/<type>-border.png`. */
    function Resolve(cardType: string): (v: BorderView)
      reads this
      ensures v.border.CustomBorder? <==> (customURL.Some? && customURL.value != "")
      ensures v.border.CustomBorder? ==> v.border.url == customURL.value && v.removeButton == "inline-block"
      ensures v.border.TypeBorder? ==> v.border.path == "img/" + AsciiLower(cardType) + "-border.png"
      ensures v.border.TypeBorder? ==> v.removeButton == "none"
    {
      if customURL.Some? && customURL.value != "" then BorderView(CustomBorder(customURL.value), "inline-block")
      else BorderView(TypeBorder("img/" + AsciiLower(cardType) + "-border.png"), "none")
    }

    /** `handleCustomBorderUpload`: `objectURL` is the URL made for the chosen file, if one was chosen. */
    method Upload(objectURL: Option<string>)
      modifies this
      ensures objectURL.Some? ==> customURL == objectURL
      ensures objectURL.None? ==> customURL == old(customURL)
    {
      if objectURL.Some? {
        customURL := objectURL;
      }
    }

    /** `clearCustomBorder`, and the reset button's `customBorderURL = null`. */
    method Clear()
      modifies this
      ensures customURL == None
      ensures forall t :: Resolve(t).border == TypeBorder("img/" + AsciiLower(t) + "-border.png")
    {
      customURL := None;
    }
  }

  // ---------------------------------------------------------------------------
  // Export file name

  predicate IsAlnum(c: char) { 'a' <= c <= 'z' || 'A' <= c <= 'Z' || '0' <= c <= '9' }

  predicate IsFileNameChar(c: char) { 'a' <= c <= 'z' || '0' <= c <= '9' || c == '_' }

  /** The UTF-16 code units of `c`: two (a surrogate pair) above U+FFFF, one otherwise. */
  function Units(c: char): nat {
    if c as int > 0xFFFF then 2 else 1
  }

  /** JavaScript's `.length` of `s`: the number of its UTF-16 code units. */
  function Utf16Length(s: string): nat
    decreases |s|
  {
    if s == [] then 0 else Units(s[0]) + Utf16Length(s[1..])
  }

  /** No character of `s` needs a surrogate pair. */
  predicate InBmp(s: string) {
    forall i :: 0 <= i < |s| ==> Units(s[i]) == 1
  }

  /**
   * What the replace writes for one character. The pattern has no `u` flag, so it
   * matches code units: a character above U+FFFF is two units, each replaced.
   */
  function ReplaceChar(c: char): string {
    if IsAlnum(c) then [c] else if c as int > 0xFFFF then "__" else "_"
  }

  /** `.replace(/[^a-z0-9]/gi, '_')`. */
  function ReplaceNonAlnum(s: string): (t: string)
    ensures |t| == Utf16Length(s)
    ensures forall i :: 0 <= i < |t| ==> IsAlnum(t[i]) || t[i] == '_'
    decreases |s|
  {
    if s == [] then [] else ReplaceChar(s[0]) + ReplaceNonAlnum(s[1..])
  }

  /** The replace works piece by piece: it distributes over concatenation. */
  lemma {:induction false} ReplaceConcat(a: string, b: string)
    ensures ReplaceNonAlnum(a + b) == ReplaceNonAlnum(a) + ReplaceNonAlnum(b)
    decreases |a|
  {
    if a == [] {
      assert a + b == b;
    } else {
      assert (a + b)[1..] == a[1..] + b;
      ReplaceConcat(a[1..], b);
    }
  }

  /** Within the Basic Multilingual Plane the replace keeps the length and acts character by character. */
  lemma {:induction false} ReplaceBmp(s: string)
    requires InBmp(s)
    ensures var t := ReplaceNonAlnum(s);
      |t| == |s| && forall i :: 0 <= i < |s| ==> t[i] == (if IsAlnum(s[i]) then s[i] else '_')
    decreases |s|
  {
    if s != [] {
      assert InBmp(s[1..]) by {
        forall i | 0 <= i < |s[1..]| ensures Units(s[1..][i]) == 1 {
          assert s[1..][i] == s[i + 1];
        }
      }
      assert Units(s[0]) == 1;
      ReplaceBmp(s[1..]);
    }
  }

  /** A character above U+FFFF, such as an emoji, becomes two underscores. */
  lemma ReplaceAstral()
    ensures ReplaceNonAlnum("\U{1F600}") == "__"
  {
    assert "\U{1F600}"[1..] == [];
  }

  /** The character the export name keeps for `c`. */
  function SafeChar(c: char): (d: char)
    ensures IsFileNameChar(d)
    ensures IsAlnum(c) ==> d == LowerChar(c)
    ensures !IsAlnum(c) ==> d == '_'
  {
    if IsAlnum(c) then LowerChar(c) else '_'
  }

  /** Replacing, then lowering, one character gives `SafeChar`. */
  lemma SafeCharOf(c: char)
    ensures LowerChar(if IsAlnum(c) then c else '_') == SafeChar(c)
  {
  }

  lemma SafeExport(t: string, r: string, f: string)
    requires |r| == |t| && forall i :: 0 <= i < |t| ==> r[i] == (if IsAlnum(t[i]) then t[i] else '_')
    requires |f| == |r| && forall i :: 0 <= i < |r| ==> f[i] == LowerChar(r[i])
    ensures |f| == |t| && forall i :: 0 <= i < |t| ==> f[i] == SafeChar(t[i])
  {
    forall i | 0 <= i < |t| ensures f[i] == SafeChar(t[i]) {
      SafeCharOf(t[i]);
    }
  }

  /** Lowering a string of letters, digits and '_' leaves one of [a-z0-9_] at every place. */
  lemma LowerIsFileName(r: string)
    requires forall i :: 0 <= i < |r| ==> IsAlnum(r[i]) || r[i] == '_'
    ensures forall i :: 0 <= i < |r| ==> IsFileNameChar(AsciiLower(r)[i])
  {
    AsciiLowerChars(r);
  }

  /**
   * `(name || 'card').trim().replace(/[^a-z0-9]/gi, '_').toLowerCase()`. Trimming
   * code points equals trimming code units, as every white-space character lies
   * below U+FFFF.
   */
  function ExportFileName(name: string): (f: string)
    ensures var t := Trim(if name == "" then "card" else name);
      |f| == Utf16Length(t)
    ensures var t := Trim(if name == "" then "card" else name);
      InBmp(t) ==> |f| == |t| && forall i :: 0 <= i < |t| ==> f[i] == SafeChar(t[i])
    ensures forall i :: 0 <= i < |f| ==> IsFileNameChar(f[i])
    ensures name != "" && AllWhite(name) ==> f == ""
  {
    var t := Trim(if name == "" then "card" else name);
    var r := ReplaceNonAlnum(t);
    var f := AsciiLower(r);
    LowerIsFileName(r);
    if InBmp(t) then
      ReplaceBmp(t);
      AsciiLowerChars(r);
      SafeExport(t, r, f);
      f
    else
      f
  }

  /** An emoji name is exported as two underscores, one per UTF-16 code unit. */
  lemma ExportAstral()
    ensures ExportFileName("\U{1F600}") == "__"
  {
    var t := Trim("\U{1F600}");
    assert !IsWhite('\U{1F600}');
    assert t == "\U{1F600}";
    ReplaceAstral();
    AsciiLowerChars("__");
    assert AsciiLower("__") == "__";
  }
}
