/** The gallery's decision rules: which chapter a scroll offset selects and how the
    highlighted chapter is updated, which indicator is highlighted, how a story's
    image carousel advances and which image identifiers are placeholders, and the
    bounded list of floating images on the hero section. */
module Gallery {
  import opened Wrappers

  // ---------------------------------------------------------------------------
  // Scroll position to chapter

  /** The value of `Math.floor((scrollPos + vh * 0.5) / vh) - 1` in JavaScript
      numbers: a finite integer when the viewport has a height, and otherwise the
      infinity or NaN that a division by zero gives. */
  datatype Quantized = Finite(index: int) | PlusInfinity | MinusInfinity | NotANumber

  /** The chapter a scroll offset selects. The half-viewport bias makes a chapter
      current once half of its section is in view; the `- 1` accounts for the hero
      section above the first chapter. */
  function ChapterIndex(scrollPos: int, vh: nat): (q: Quantized)
    ensures vh > 0 ==> q.Finite?
    ensures vh > 0 ==> 2 * (q.index + 1) * vh <= 2 * scrollPos + vh < 2 * (q.index + 2) * vh
    ensures vh == 0 ==> (q == PlusInfinity <==> scrollPos > 0)
    ensures vh == 0 ==> (q == NotANumber <==> scrollPos == 0)
    ensures vh == 0 ==> (q == MinusInfinity <==> scrollPos < 0)
  {
    if vh > 0 then
      var n, d := 2 * scrollPos + vh, 2 * vh;
      var q := n / d;
      assert q * d <= n < (q + 1) * d;
      Finite(q - 1)
    else if scrollPos > 0 then PlusInfinity
    else if scrollPos < 0 then MinusInfinity
    else NotANumber
  }

  /** The integer form agrees with the source's real-number formula
      `floor((scrollPos + vh * 0.5) / vh) - 1`. */
  lemma ChapterIndexIsFloor(scrollPos: int, vh: nat)
    requires vh > 0
    ensures ChapterIndex(scrollPos, vh) == Finite(((scrollPos as real + vh as real * 0.5) / vh as real).Floor - 1)
  {
    var n, d := 2 * scrollPos + vh, 2 * vh;
    assert (scrollPos as real + vh as real * 0.5) / vh as real == n as real / d as real;
    FloorOfQuotient(n, d);
  }

  lemma FloorOfQuotient(n: int, d: int)
    requires d > 0
    ensures (n as real / d as real).Floor == n / d
  {
    var q, r := n / d, n % d;
    assert n == d * q + r;
    CastMul(d, q);
    CastMul(d, q + 1);
    RealQuotientBounds(n as real, d as real, q as real);
  }

  lemma CastMul(a: int, b: int)
    ensures (a * b) as real == a as real * b as real
  {
  }

  lemma RealQuotientBounds(n: real, d: real, q: real)
    requires d > 0.0 && q * d <= n < (q + 1.0) * d
    ensures q <= n / d < q + 1.0
  {
    var x := n / d;
    assert x * d == n;
    if q + 1.0 <= x {
      RealMulLe(q + 1.0, x, d);
      assert false;
    }
  }

  lemma RealMulLe(a: real, b: real, d: real)
    requires d > 0.0 && a <= b
    ensures a * d <= b * d
  {
  }

  /** Scrolling further down never selects an earlier chapter. */
  lemma ChapterIndexMonotone(p1: int, p2: int, vh: nat)
    requires vh > 0 && p1 <= p2
    ensures ChapterIndex(p1, vh).index <= ChapterIndex(p2, vh).index
  {
    var i1, i2 := ChapterIndex(p1, vh).index, ChapterIndex(p2, vh).index;
    assert (i1 + 1) * (2 * vh) <= 2 * p1 + vh <= 2 * p2 + vh < (i2 + 2) * (2 * vh);
    MulCancelLt(i1 + 1, i2 + 2, 2 * vh);
  }

  lemma MulCancelLt(a: int, b: int, c: int)
    requires c > 0 && a * c < b * c
    ensures a < b
  {
    if b <= a {
      MulMonotone(b, a, c);
    }
  }

  lemma MulMonotone(a: int, b: int, c: nat)
    requires a <= b
    ensures a * c <= b * c
  {
  }

  /** The chapter update: a chapter in range is selected, anything before the first
      chapter selects the hero (-1), and anything past the last chapter, or a NaN,
      leaves the current chapter as it is. */
  function NextChapter(current: int, q: Quantized, storyCount: nat): int
  {
    match q
    case Finite(i) =>
      if 0 <= i < storyCount then i
      else if i < 0 then -1
      else current
    case MinusInfinity => -1
    case PlusInfinity => current
    case NotANumber => current
  }

  /** The values the highlighted chapter can take: the hero, a chapter, or the
      initial 0 when there are no chapters at all. */
  predicate InRange(chapter: int, storyCount: nat)
  {
    -1 <= chapter && (chapter < storyCount || chapter == 0)
  }

  /** The update keeps the highlighted chapter in range, and what it selects: a chapter
      in range when the index is one, the hero when the index is negative, and the
      previous value otherwise. */
  lemma NextChapterInRange(current: int, scrollPos: int, vh: nat, storyCount: nat)
    requires InRange(current, storyCount)
    ensures var q := ChapterIndex(scrollPos, vh);
      var r := NextChapter(current, q, storyCount);
      && InRange(r, storyCount)
      && (vh > 0 && 0 <= q.index < storyCount ==> r == q.index)
      && (vh > 0 && q.index < 0 ==> r == -1)
      && (vh > 0 && q.index >= storyCount ==> r == current)
  {
  }

  /** Handling the same scroll position twice is the same as handling it once. */
  lemma NextChapterIdempotent(current: int, scrollPos: int, vh: nat, storyCount: nat)
    ensures var q := ChapterIndex(scrollPos, vh);
      NextChapter(NextChapter(current, q, storyCount), q, storyCount) == NextChapter(current, q, storyCount)
  {
  }

  /** Below the last chapter's boundary the highlighted chapter is a function of the
      scroll position alone; past it, the previous value is kept, whatever it was. */
  lemma NextChapterStateless(c1: int, c2: int, scrollPos: int, vh: nat, storyCount: nat)
    requires vh > 0
    ensures var q := ChapterIndex(scrollPos, vh);
      && (q.index < storyCount ==> NextChapter(c1, q, storyCount) == NextChapter(c2, q, storyCount))
      && (q.index >= storyCount ==> NextChapter(c1, q, storyCount) == c1)
  {
  }

  /** With an 800-pixel viewport and five chapters: the top of the page is the hero,
      400 pixels down is the first chapter, and 4500 pixels down is past the last
      chapter, where the previous value is kept rather than clamped. */
  lemma ChapterExamples(current: int)
    ensures NextChapter(current, ChapterIndex(0, 800), 5) == -1
    ensures NextChapter(current, ChapterIndex(400, 800), 5) == 0
    ensures ChapterIndex(4500, 800) == Finite(5)
    ensures NextChapter(current, ChapterIndex(4500, 800), 5) == current
  {
  }

  /** The gallery's highlighted chapter, updated by the container's scroll listener. */
  class ChapterTracker {
    const storyCount: nat
    var currentChapter: int

    ghost predicate Valid()
      reads this
    {
      InRange(currentChapter, storyCount)
    }

    /** The highlighted chapter starts at the first chapter, not at the hero. */
    constructor (storyCount: nat)
      ensures this.storyCount == storyCount && currentChapter == 0 && Valid()
    {
      this.storyCount := storyCount;
      currentChapter := 0;
    }

    /** `handleScroll`: quantize the container's offset and update the chapter. */
    method HandleScroll(scrollPos: int, vh: nat)
      requires Valid()
      modifies this
      ensures Valid()
      ensures currentChapter == NextChapter(old(currentChapter), ChapterIndex(scrollPos, vh), storyCount)
    {
      var q := ChapterIndex(scrollPos, vh);
      match q
      case Finite(index) =>
        if 0 <= index < storyCount {
          currentChapter := index;
        } else if index < 0 {
          currentChapter := -1;
        }
      case MinusInfinity =>
        currentChapter := -1;
      case PlusInfinity =>
      case NotANumber =>
    }
  }

  // ---------------------------------------------------------------------------
  // Chapter indicators

  /** One indicator per chapter, highlighted when it is the current chapter. */
  function Indicators(total: nat, current: int): (r: seq<bool>)
    ensures |r| == total
    ensures forall i :: 0 <= i < total ==> (r[i] <==> current == i)
  {
    seq(total, i => current == i)
  }

  function CountActive(r: seq<bool>): nat
  {
    if r == [] then 0 else (if r[0] then 1 else 0) + CountActive(r[1..])
  }

  lemma {:induction false} CountAtOnePosition(r: seq<bool>, c: int)
    requires forall i :: 0 <= i < |r| ==> (r[i] <==> i == c)
    ensures CountActive(r) == if 0 <= c < |r| then 1 else 0
  {
    if r != [] {
      CountAtOnePosition(r[1..], c - 1);
    }
  }

  /** Exactly one indicator is highlighted when the current chapter is a chapter, and
      none when it is the hero. */
  lemma OneIndicatorActive(total: nat, current: int)
    ensures CountActive(Indicators(total, current)) == if 0 <= current < total then 1 else 0
    ensures current == -1 ==> CountActive(Indicators(total, current)) == 0
  {
    CountAtOnePosition(Indicators(total, current), current);
  }

  // ---------------------------------------------------------------------------
  // Image carousel of a story

  /** The `images` prop: an array of image identifiers, or a single one. */
  datatype ImagesProp = ImageList(items: seq<string>) | SingleImage(item: string)

  /** The slides shown: a non-array prop becomes a one-element list. */
  function Slides(images: ImagesProp): seq<string>
  {
    match images
    case ImageList(items) => items
    case SingleImage(item) => [item]
  }

  /** The slide after `prev`, wrapping round to the first. */
  function NextSlide(prev: nat, len: nat): (r: nat)
    requires len > 0
    ensures r < len
    ensures prev < len ==> r == if prev + 1 == len then 0 else prev + 1
  {
    (prev + 1) % len
  }

  /** The slide shown after `k` advances from the first. */
  function AdvanceTimes(len: nat, k: nat): nat
    requires len > 0
  {
    if k == 0 then 0 else NextSlide(AdvanceTimes(len, k - 1), len)
  }

  /** After `k` advances the carousel shows slide `k mod len`: it visits the slides in
      order and returns to the first after `len` advances. */
  lemma {:induction false} AdvanceTimesIsMod(len: nat, k: nat)
    requires len > 0
    ensures AdvanceTimes(len, k) == k % len
  {
    if k > 0 {
      AdvanceTimesIsMod(len, k - 1);
      var a := (k - 1) % len;
      assert k - 1 == (k - 1) / len * len + a;
      if a + 1 == len {
        ModUnique(k, len, (k - 1) / len + 1, 0);
      } else {
        ModUnique(k, len, (k - 1) / len, a + 1);
      }
    }
  }

  lemma ModUnique(x: int, len: nat, q: int, r: int)
    requires len > 0 && x == q * len + r && 0 <= r < len
    ensures x % len == r
  {
    var q', r' := x / len, x % len;
    assert x == q' * len + r';
    if q < q' {
      MulMonotone(q + 1, q', len);
      assert false;
    } else if q' < q {
      MulMonotone(q' + 1, q, len);
      assert false;
    }
  }

  /** A full round of advances brings the carousel back to the first slide. */
  lemma AdvanceFullRound(len: nat)
    requires len > 0
    ensures AdvanceTimes(len, len) == 0
  {
    AdvanceTimesIsMod(len, len);
  }

  /** Whether the image identifier is a placeholder rather than a Cloudinary public ID
      or a full URL: it does not start with "http" and it contains a hyphen. */
  predicate IsPlaceholder(s: string)
  {
    !StartsWith(s, "http") && '-' in s
  }

  /** JavaScript's `s.startsWith(prefix)`. */
  predicate StartsWith(s: string, prefix: string)
  {
    |prefix| <= |s| && s[..|prefix|] == prefix
  }

  const UnsplashPrefix: string := "https://" + "source.unsplash.com/random/1920x1080?cinematic,"

  /** Where the slide's image comes from: a random Unsplash picture for a placeholder;
      otherwise whatever `getImageUrl` returns for the identifier. Of that helper only
      its two early returns are modelled: an empty identifier gives the empty string,
      and one starting with "http" is returned verbatim. Any other identifier is handed
      to the Cloudinary URL builder, which is not part of this model. */
  datatype ImageSource =
    | Unsplash(url: string)
    | FullUrl(url: string)
    | CloudinaryId(publicId: string)
    | NoSource

  /** `getImageUrl(publicId, ...)` as far as its early returns go. */
  function ImageUrl(publicId: string): ImageSource
  {
    if publicId == [] then NoSource
    else if StartsWith(publicId, "http") then FullUrl(publicId)
    else CloudinaryId(publicId)
  }

  /** `finalSrc` for the slide identifier `s`. */
  function FinalSource(s: string): (r: ImageSource)
    ensures r.Unsplash? <==> IsPlaceholder(s)
    ensures r.Unsplash? ==> r.url == UnsplashPrefix + s && !IsPlaceholder(r.url)
    ensures r.FullUrl? <==> StartsWith(s, "http")
    ensures r.FullUrl? ==> r.url == s
    ensures r.NoSource? <==> s == []
    ensures r.CloudinaryId? ==> r.publicId == s && s != [] && '-' !in s
  {
    UnsplashUrlIsNotPlaceholder(s);
    if IsPlaceholder(s) then Unsplash(UnsplashPrefix + s) else ImageUrl(s)
  }

  /** A placeholder's Unsplash URL is never itself taken for a placeholder, and full
      URLs never are. */
  lemma UnsplashUrlIsNotPlaceholder(s: string)
    ensures !IsPlaceholder(UnsplashPrefix + s)
    ensures StartsWith(s, "http") ==> !IsPlaceholder(s)
  {
    assert (UnsplashPrefix + s)[..4] == UnsplashPrefix[..4];
  }

  /** One story's carousel. The advancing interval is armed only when there is more
      than one slide. */
  class Carousel {
    const slides: seq<string>
    var currentIndex: nat

    ghost predicate Valid()
      reads this
    {
      |slides| > 0 ==> currentIndex < |slides|
    }

    constructor (images: ImagesProp)
      ensures slides == Slides(images) && currentIndex == 0 && Valid()
      ensures images.SingleImage? ==> |slides| == 1
    {
      slides := Slides(images);
      currentIndex := 0;
    }

    /** Whether the component arms the advancing interval. */
    predicate Advances()
    {
      |slides| > 1
    }

    /** One advance of the interval. */
    method Advance()
      requires Valid() && Advances()
      modifies this
      ensures Valid()
      ensures currentIndex == NextSlide(old(currentIndex), |slides|)
    {
      currentIndex := (currentIndex + 1) % |slides|;
    }

    /** The identifier shown. An empty image array leaves it undefined, and the
        component's `startsWith` call on it throws. */
    function CurrentSource(): (r: Option<ImageSource>)
      reads this
      requires Valid()
      ensures r.Some? <==> |slides| > 0
      ensures r.Some? ==> r.value == FinalSource(slides[currentIndex])
    {
      if currentIndex < |slides| then Some(FinalSource(slides[currentIndex])) else None
    }
  }

  // ---------------------------------------------------------------------------
  // Floating images on the hero section

  /** One floating image; its position, scale and rotation are random in the source
      and are carried here as given values. */
  datatype FloatingImage = FloatingImage(id: int, src: string, top: real, left: real, scale: real, rotation: real)

  /** One firing of the floating-image interval: with more than three images the
      oldest is dropped, otherwise the new one is appended. */
  function FloatStep(prev: seq<FloatingImage>, candidate: FloatingImage): seq<FloatingImage>
  {
    if |prev| > 3 then prev[1..] else prev + [candidate]
  }

  /** The list after the interval has fired once per candidate, starting empty. */
  function Replay(candidates: seq<FloatingImage>): seq<FloatingImage>
    decreases |candidates|
  {
    if candidates == [] then []
    else FloatStep(Replay(candidates[..|candidates| - 1]), candidates[|candidates| - 1])
  }

  /** Every image ever appended, oldest first. */
  function Appended(candidates: seq<FloatingImage>): seq<FloatingImage>
    decreases |candidates|
  {
    if candidates == [] then []
    else
      var init := candidates[..|candidates| - 1];
      if |Replay(init)| > 3 then Appended(init) else Appended(init) + [candidates[|candidates| - 1]]
  }

  /** The number of images after `k` firings: 0, 1, 2, 3, 4, then 3 and 4 alternating. */
  function LengthAfter(k: nat): nat
  {
    if k <= 4 then k else if k % 2 == 0 then 4 else 3
  }

  /** The list never holds more than four images, and its length follows `LengthAfter`. */
  lemma {:induction false} ReplayLength(candidates: seq<FloatingImage>)
    ensures |Replay(candidates)| == LengthAfter(|candidates|)
    ensures |Replay(candidates)| <= 4
    decreases |candidates|
  {
    if candidates != [] {
      ReplayLength(candidates[..|candidates| - 1]);
    }
  }

  /** First in, first out: the list is always the newest images among those appended,
      in the order they were appended. */
  lemma {:induction false} ReplayIsNewestAppended(candidates: seq<FloatingImage>)
    ensures |Replay(candidates)| <= |Appended(candidates)|
    ensures Replay(candidates) == Appended(candidates)[|Appended(candidates)| - |Replay(candidates)|..]
    decreases |candidates|
  {
    if candidates != [] {
      var init := candidates[..|candidates| - 1];
      ReplayIsNewestAppended(init);
      var r, a := Replay(init), Appended(init);
      if |r| > 3 {
        assert Replay(candidates) == r[1..];
        assert Appended(candidates) == a;
      } else {
        var c := candidates[|candidates| - 1];
        assert Replay(candidates) == r + [c];
        assert Appended(candidates) == a + [c];
        assert (a + [c])[|a| + 1 - (|r| + 1)..] == a[|a| - |r|..] + [c];
      }
    }
  }

  /** The hero section's floating images, rewritten by a 1.5 s interval. */
  class AmbientImages {
    var activeImages: seq<FloatingImage>

    ghost predicate Valid()
      reads this
    {
      |activeImages| <= 4
    }

    constructor ()
      ensures activeImages == [] && Valid()
    {
      activeImages := [];
    }

    /** One firing of the interval; `candidate` is the randomly placed image it would add. */
    method Tick(candidate: FloatingImage)
      requires Valid()
      modifies this
      ensures Valid()
      ensures activeImages == FloatStep(old(activeImages), candidate)
      ensures |old(activeImages)| > 3 ==> activeImages == old(activeImages)[1..]
      ensures |old(activeImages)| <= 3 ==> activeImages == old(activeImages) + [candidate]
    {
      if |activeImages| > 3 {
        activeImages := activeImages[1..];
      } else {
        activeImages := activeImages + [candidate];
      }
    }
  }
}
