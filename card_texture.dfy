// Card-face textures (composables/useCardTexture.ts): a cache key, a global cache that is
// looked up before a canvas is drawn, the font-size rule, and disposal of the local reference.
module Texture {
  import opened Types

  const CanvasWidth := 512
  const CanvasHeight := 768
  const MaxFontSize := 120.0
  /** The font size times the name length, while that stays under the maximum. */
  const FontBudget := 500.0
  /** Text fill used when the text colour is empty. */
  const DefaultTextFill := "#ffffff"

  /** `cacheKey`: name, colour and text colour joined by dashes. */
  function CacheKey(name: string, color: string, textColor: string): (k: string)
    ensures |k| == |name| + |color| + |textColor| + 2
    ensures k[..|name|] == name && k[|name|] == '-' && k[|name| + 1 + |color|] == '-'
    ensures k[|name| + 1..|name| + 1 + |color|] == color && k[|name| + 2 + |color|..] == textColor
  {
    name + "-" + color + "-" + textColor
  }

  /** A dash cannot sit where a dash-free longer prefix still has a character. */
  lemma DashInsidePrefix(a: string, r: string, b: string, s: string)
    requires '-' !in b
    ensures |a| < |b| ==> a + "-" + r != b + "-" + s
  {
    if |a| < |b| {
      assert (a + "-" + r)[|a|] == '-';
      assert (b + "-" + s)[|a|] == b[|a|];
    }
  }

  /** A string with a dash right after a dash-free prefix determines that prefix and the rest. */
  lemma SplitAtFirstDash(a: string, r: string, b: string, s: string)
    requires '-' !in a && '-' !in b
    requires a + "-" + r == b + "-" + s
    ensures a == b && r == s
  {
    var k1, k2 := a + "-" + r, b + "-" + s;
    DashInsidePrefix(a, r, b, s);
    DashInsidePrefix(b, s, a, r);
    assert a == k1[..|a|] && b == k2[..|b|];
    assert r == k1[|a| + 1..] && s == k2[|b| + 1..];
  }

  /** When names and colours have no dash, equal keys mean equal properties. */
  lemma CacheKeyInjective(n1: string, c1: string, t1: string, n2: string, c2: string, t2: string)
    requires '-' !in n1 && '-' !in n2 && '-' !in c1 && '-' !in c2
    requires CacheKey(n1, c1, t1) == CacheKey(n2, c2, t2)
    ensures n1 == n2 && c1 == c2 && t1 == t2
  {
    assert CacheKey(n1, c1, t1) == n1 + "-" + (c1 + "-" + t1);
    assert CacheKey(n2, c2, t2) == n2 + "-" + (c2 + "-" + t2);
    SplitAtFirstDash(n1, c1 + "-" + t1, n2, c2 + "-" + t2);
    SplitAtFirstDash(c1, t1, c2, t2);
  }

  /** With a dash in a name, two different cards can share a key (and so a texture). */
  lemma CacheKeyCollides()
    ensures CacheKey("a-b", "c", "d") == CacheKey("a", "b-c", "d")
  {
  }

  lemma QuotientBounds(len: int, q: real)
    requires len >= 1 && q == FontBudget / len as real
    ensures q * len as real == FontBudget
    ensures len <= 4 ==> q >= MaxFontSize
    ensures len > 4 ==> q < MaxFontSize
  {
    assert q * len as real == FontBudget;
    if len <= 4 {
      assert q * len as real <= q * 4.0;
    } else {
      assert q * 5.0 <= q * len as real;
    }
  }

  /** The font size in `createCardCanvas`: `min(120, 500 / max(1, name length))`. */
  function FontSize(name: string): (r: real)
    ensures 0.0 < r <= MaxFontSize
    ensures r == MaxFontSize <==> |name| <= 4
    ensures |name| > 4 ==> r * |name| as real == FontBudget
  {
    var len := if |name| > 1 then |name| else 1;
    var q := FontBudget / len as real;
    QuotientBounds(len, q);
    if q < MaxFontSize then q else MaxFontSize
  }

  /** What `createCardCanvas` draws: size, background, text, its font size and its fill. */
  datatype Canvas = Canvas(width: int, height: int, background: string, fontSize: real,
                           text: string, textFill: string)

  /** How drawing went: drawn, no 2D context, or an exception while drawing. */
  datatype DrawOutcome = Drawn | NoContext | DrawingThrew

  /**
   * `createCardCanvas`: null outside a browser, without a 2D context, or when drawing throws;
   * otherwise a 512 x 768 canvas in the card colour with the name at the computed font size,
   * in the text colour or white when that is empty.
   */
  function CreateCardCanvas(isBrowser: bool, name: string, color: string, textColor: string,
                            outcome: DrawOutcome): (r: Option<Canvas>)
    ensures r.Some? <==> isBrowser && outcome == Drawn
    ensures r.Some? ==>
              && r.value.width == CanvasWidth && r.value.height == CanvasHeight
              && r.value.background == color && r.value.text == name
              && r.value.fontSize == FontSize(name)
              && r.value.textFill == (if textColor == "" then DefaultTextFill else textColor)
  {
    if !isBrowser then None
    else if outcome != Drawn then None
    else Some(Canvas(CanvasWidth, CanvasHeight, color, FontSize(name), name,
                     if textColor == "" then DefaultTextFill else textColor))
  }

  /** A three.js CanvasTexture over a drawn canvas. */
  class CanvasTexture {
    const canvas: Canvas
    var needsUpdate: bool

    constructor (canvas: Canvas)
      ensures this.canvas == canvas && !needsUpdate
    {
      this.canvas := canvas;
      needsUpdate := false;
    }
  }

  /** The global texture cache shared by every card; entries are never removed. */
  class TextureCache {
    var entries: map<string, CanvasTexture>

    constructor ()
      ensures entries == map[]
    {
      entries := map[];
    }
  }

  /**
   * The outcome of `generateTexture` for `key` from the cache contents `before`, where `drawn`
   * is what `createCardCanvas` would give: a hit returns the cached texture and draws nothing;
   * a miss whose canvas cannot be made returns null and leaves the cache alone; a successful
   * miss caches and returns a new texture over the new canvas. Whatever is returned non-null
   * is what the cache now holds under the key.
   */
  twostate predicate Generated(cache: TextureCache, before: map<string, CanvasTexture>, key: string,
                               drawn: Option<Canvas>, new t: CanvasTexture?)
    reads cache, t
  {
    && (key in before ==> t == before[key] && cache.entries == before)
    && (key !in before && drawn == None ==> t == null && cache.entries == before)
    && (key !in before && drawn.Some? ==>
         t != null && fresh(t) && t.canvas == drawn.value && t.needsUpdate
         && cache.entries == before[key := t])
    && (t != null ==> key in cache.entries && cache.entries[key] == t)
  }

  /** One card's texture state: its properties, the shared cache and the current texture. */
  class CardTexture {
    const cache: TextureCache
    const isBrowser: bool
    var name: string
    var color: string
    var textColor: string
    var cardTexture: CanvasTexture?

    function Key(): string
      reads this
    {
      CacheKey(name, color, textColor)
    }

    function Drawn(outcome: DrawOutcome): Option<Canvas>
      reads this
    {
      CreateCardCanvas(isBrowser, name, color, textColor, outcome)
    }

    /** Setting up the composable generates the texture at once in a browser. */
    constructor (cache: TextureCache, isBrowser: bool, name: string, color: string, textColor: string,
                 outcome: DrawOutcome)
      modifies cache
      ensures this.cache == cache && this.isBrowser == isBrowser
      ensures this.name == name && this.color == color && this.textColor == textColor
      ensures !isBrowser ==> cardTexture == null && cache.entries == old(cache.entries)
      ensures isBrowser ==> Generated(cache, old(cache.entries), CacheKey(name, color, textColor),
                                      CreateCardCanvas(isBrowser, name, color, textColor, outcome), cardTexture)
    {
      this.cache := cache;
      this.isBrowser := isBrowser;
      this.name := name;
      this.color := color;
      this.textColor := textColor;
      new;
      cardTexture := null;
      if isBrowser {
        cardTexture := GenerateTexture(outcome);
      }
    }

    /** `generateTexture`: look up the key, else draw and insert. */
    method GenerateTexture(outcome: DrawOutcome) returns (t: CanvasTexture?)
      modifies cache
      ensures Generated(cache, old(cache.entries), Key(), Drawn(outcome), t)
    {
      var key := Key();
      if key in cache.entries {
        return cache.entries[key];
      }
      var canvas := CreateCardCanvas(isBrowser, name, color, textColor, outcome);
      if canvas == None {
        return null;
      }
      t := new CanvasTexture(canvas.value);
      t.needsUpdate := true;
      cache.entries := cache.entries[key := t];
    }

    /** `regenerateTexture`: the current texture becomes whatever `generateTexture` gives. */
    method RegenerateTexture(outcome: DrawOutcome)
      modifies this, cache
      ensures name == old(name) && color == old(color) && textColor == old(textColor)
      ensures Generated(cache, old(cache.entries), Key(), Drawn(outcome), cardTexture)
    {
      cardTexture := GenerateTexture(outcome);
    }

    /**
     * New property values, and the watch on them: it fires only when some value changed,
     * and then regenerates in a browser.
     */
    method SetProperties(name: string, color: string, textColor: string, outcome: DrawOutcome)
      modifies this, cache
      ensures this.name == name && this.color == color && this.textColor == textColor
      ensures var changed := (name, color, textColor) != old((this.name, this.color, this.textColor));
              if changed && isBrowser then Generated(cache, old(cache.entries), Key(), Drawn(outcome), cardTexture)
              else cardTexture == old(cardTexture) && cache.entries == old(cache.entries)
    {
      var changed := (name, color, textColor) != (this.name, this.color, this.textColor);
      this.name, this.color, this.textColor := name, color, textColor;
      if changed && isBrowser {
        cardTexture := GenerateTexture(outcome);
      }
    }

    /** `dispose`: drops only the local reference; the shared cache keeps its entries. */
    method Dispose()
      modifies this
      ensures cardTexture == null
      ensures name == old(name) && color == old(color) && textColor == old(textColor)
      ensures cache.entries == old(cache.entries)
    {
      cardTexture := null;
    }
  }

  /** Generating twice in a row: the second call hits and returns the very same texture. */
  method GenerateTwice(c: CardTexture, outcome: DrawOutcome, again: DrawOutcome)
    returns (first: CanvasTexture?, second: CanvasTexture?)
    modifies c.cache
    ensures first != null ==> second == first && c.cache.entries == old(c.cache.entries)[c.Key() := first]
  {
    first := c.GenerateTexture(outcome);
    second := c.GenerateTexture(again);
  }
}
