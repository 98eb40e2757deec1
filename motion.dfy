/** The utilities of the motion design system's animation library: how
    `staggerAnimation`, `scrollAnimation` and `parallax` build the
    variables they hand to GSAP, which elements the page-load
    initialisation animates, and the text scramble effect.

    GSAP itself is not modelled: a call to `gsap.fromTo` or `gsap.to` is
    the `Tween` value it is given. A JavaScript object of tween variables
    is a map from keys to values (key order is not modelled), and object
    spread `{...a, ...b}` is the map union `a + b`, where b's entries win. */
module MotionLibrary {
  import opened Common

  /** A tween variable's value; `Obj` is a nested object such as `scrollTrigger`. */
  datatype Value = Num(n: real) | Str(s: string) | Flag(b: bool) | Element(id: nat) | Obj(fields: map<string, Value>)

  type Vars = map<string, Value>

  /** A preset: optional from-variables and the to-variables. */
  datatype Preset = Preset(from: Option<Vars>, to: Vars)

  /** `gsap.fromTo(targets, from, to)` or `gsap.to(targets, to)`. */
  datatype Tween = FromTo(targets: seq<nat>, from: Vars, to: Vars) | To(targets: seq<nat>, vars: Vars)

  const DefaultStagger: real := 0.1
  const DefaultParallaxSpeed: real := 0.5

  /** `animation.from || {}`: a preset without from-variables starts from nothing. */
  function FromVars(p: Preset): (v: Vars)
    ensures p.from.None? ==> v == map[]
    ensures p.from.Some? ==> v == p.from.value
  {
    p.from.GetOr(map[])
  }

  /** `staggerAnimation(elements, animation, staggerTime = 0.1)`. */
  function StaggerAnimation(elements: seq<nat>, p: Preset, staggerTime: Option<real>): (t: Tween)
    ensures t.FromTo? && t.targets == elements && t.from == FromVars(p)
    ensures "stagger" in t.to && t.to["stagger"] == Num(staggerTime.GetOr(DefaultStagger))
    ensures forall k :: k in p.to && k != "stagger" ==> k in t.to && t.to[k] == p.to[k]
    ensures t.to.Keys == p.to.Keys + {"stagger"}
  {
    FromTo(elements, FromVars(p), p.to + map["stagger" := Num(staggerTime.GetOr(DefaultStagger))])
  }

  /** The default scroll trigger of `scrollAnimation` for an element. */
  function DefaultTrigger(element: nat): (v: Vars)
    ensures v.Keys == {"trigger", "start", "end", "toggleActions"}
    ensures v["trigger"] == Element(element)
  {
    map["trigger" := Element(element), "start" := Str("top 80%"),
        "end" := Str("bottom 20%"), "toggleActions" := Str("play none none reverse")]
  }

  /** The scroll trigger `scrollAnimation` builds: the caller's options
      override the defaults key by key, and unmentioned defaults remain. */
  function Trigger(element: nat, options: Vars): (v: Vars)
    ensures v.Keys == DefaultTrigger(element).Keys + options.Keys
    ensures forall k :: k in options ==> v[k] == options[k]
    ensures forall k :: k in DefaultTrigger(element) && k !in options ==> v[k] == DefaultTrigger(element)[k]
  {
    DefaultTrigger(element) + options
  }

  /** `scrollAnimation(element, animation, triggerOptions = {})`. */
  function ScrollAnimation(element: nat, p: Preset, options: Vars): (t: Tween)
    ensures t.FromTo? && t.targets == [element] && t.from == FromVars(p)
    ensures "scrollTrigger" in t.to && t.to["scrollTrigger"] == Obj(Trigger(element, options))
    ensures forall k :: k in p.to && k != "scrollTrigger" ==> k in t.to && t.to[k] == p.to[k]
    ensures t.to.Keys == p.to.Keys + {"scrollTrigger"}
  {
    FromTo([element], FromVars(p), p.to + map["scrollTrigger" := Obj(Trigger(element, options))])
  }

  /** Without options the trigger starts at "top 80%", ends at
      "bottom 20%", plays forward and reverses on the way back. */
  lemma DefaultScrollTrigger(element: nat, p: Preset)
    ensures var t := ScrollAnimation(element, p, map[]);
      t.to["scrollTrigger"].fields == map["trigger" := Element(element), "start" := Str("top 80%"),
        "end" := Str("bottom 20%"), "toggleActions" := Str("play none none reverse")]
  {
    assert DefaultTrigger(element) + map[] == DefaultTrigger(element);
  }

  /** The tween `parallax` gives the element at index k for base speed `speed`. */
  function ParallaxTween(element: nat, k: nat, speed: real): (t: Tween)
    ensures t.To? && t.targets == [element]
    ensures "yPercent" in t.vars && t.vars["yPercent"] == Num(-100.0 * (speed * (k as real + 1.0)))
  {
    To([element], map["yPercent" := Num(-100.0 * (speed * (k as real + 1.0))), "ease" := Str("none"),
      "scrollTrigger" := Obj(map["trigger" := Element(element), "start" := Str("top bottom"),
                                 "end" := Str("bottom top"), "scrub" := Flag(true)])])
  }

  /** `parallax(elements, speed = 0.5)`: one tween per element, in order. */
  function Parallax(elements: seq<nat>, speed: Option<real>): (ts: seq<Tween>)
    ensures |ts| == |elements|
  {
    seq(|elements|, k requires 0 <= k < |elements| => ParallaxTween(elements[k], k, speed.GetOr(DefaultParallaxSpeed)))
  }

  /** The element at index k gets speed*(k+1): with a positive speed each
      element scrolls 100*speed percent farther up than the one before it,
      and with the default speed the first moves by 50 percent. */
  lemma ParallaxLayers(elements: seq<nat>, speed: real, k: nat)
    requires 0 < k < |elements|
    ensures var ts := Parallax(elements, Some(speed));
      ts[k].vars["yPercent"].n == ts[k - 1].vars["yPercent"].n - 100.0 * speed
    ensures |elements| > 0 ==> Parallax(elements, None)[0].vars["yPercent"] == Num(-50.0)
  {
    var ts := Parallax(elements, Some(speed));
    assert ts[k] == ParallaxTween(elements[k], k, speed);
    assert ts[k - 1] == ParallaxTween(elements[k - 1], k - 1, speed);
    assert speed * (k as real + 1.0) == speed * ((k - 1) as real + 1.0) + speed;
    if |elements| > 0 {
      assert Parallax(elements, None)[0] == ParallaxTween(elements[0], 0, 0.5);
    }
  }

  /** What page-load initialisation reads from an element: `data-animation`,
      `data-category` (None when absent) and whether `data-scroll` is set. */
  datatype Attrs = Attrs(id: nat, animation: string, category: Option<string>, scroll: bool)

  /** The preset tables, by category and then by animation name. */
  type Presets = map<string, map<string, Preset>>

  /** `getAttribute('data-category') || 'entrance'`: an absent or empty
      category means the entrance presets. */
  function Category(a: Attrs): (c: string)
    ensures c == "entrance" <==> a.category.None? || a.category.value == "" || a.category.value == "entrance"
  {
    match a.category
    case None => "entrance"
    case Some(c) => if c == "" then "entrance" else c
  }

  /** The element names a preset that exists. */
  predicate HasTween(a: Attrs, presets: Presets) {
    Category(a) in presets && a.animation in presets[Category(a)]
  }

  /** The tween initialisation starts for one element, if any: only
      elements whose preset exists are animated, through `scrollAnimation`
      when `data-scroll` is set. */
  function Dispatch(a: Attrs, presets: Presets): (t: Option<Tween>)
    ensures t.Some? <==> HasTween(a, presets)
    ensures t.Some? && a.scroll ==>
      t.value == ScrollAnimation(a.id, presets[Category(a)][a.animation], map[])
    ensures t.Some? && !a.scroll ==>
      t.value == FromTo([a.id], FromVars(presets[Category(a)][a.animation]), presets[Category(a)][a.animation].to)
  {
    var c := Category(a);
    if c in presets && a.animation in presets[c] then
      var p := presets[c][a.animation];
      if a.scroll then Some(ScrollAnimation(a.id, p, map[])) else Some(FromTo([a.id], FromVars(p), p.to))
    else None
  }

  /** The tweens among `os`, in order: what the `forEach` over the
      elements starts when element i's outcome is os[i]. */
  function Present(os: seq<Option<Tween>>): (ts: seq<Tween>)
    ensures |ts| <= |os|
    decreases |os|
  {
    if os == [] then []
    else
      var rest := Present(os[..|os| - 1]);
      match os[|os| - 1]
      case Some(t) => rest + [t]
      case None => rest
  }

  /** The positions in `os` that hold a tween, increasing, each once. */
  function PresentAt(os: seq<Option<Tween>>): (idx: seq<nat>)
    ensures forall k :: 0 <= k < |idx| ==> idx[k] < |os| && os[idx[k]].Some?
    ensures forall k, l :: 0 <= k < l < |idx| ==> idx[k] < idx[l]
    ensures forall i :: 0 <= i < |os| && os[i].Some? ==> i in idx
    decreases |os|
  {
    if os == [] then []
    else
      var init := os[..|os| - 1];
      var rest := PresentAt(init);
      assert forall k :: 0 <= k < |rest| ==> os[rest[k]] == init[rest[k]];
      assert forall i :: 0 <= i < |init| ==> os[i] == init[i];
      if os[|os| - 1].Some? then rest + [|os| - 1] else rest
  }

  /** The k-th tween kept is the one at the k-th position holding a tween. */
  lemma {:induction false} PresentInOrder(os: seq<Option<Tween>>)
    ensures |Present(os)| == |PresentAt(os)|
    ensures forall k :: 0 <= k < |PresentAt(os)| ==> Present(os)[k] == os[PresentAt(os)[k]].value
    decreases |os|
  {
    if os != [] {
      var init := os[..|os| - 1];
      PresentInOrder(init);
      var rest, idx := Present(init), PresentAt(init);
      var ts, all := Present(os), PresentAt(os);
      if os[|os| - 1].Some? {
        assert ts == rest + [os[|os| - 1].value];
        assert all == idx + [|os| - 1];
      } else {
        assert ts == rest && all == idx;
      }
      forall k | 0 <= k < |all|
        ensures ts[k] == os[all[k]].value
      {
        if k < |idx| {
          assert os[idx[k]] == init[idx[k]];
        }
      }
    }
  }

  /** Every tween kept comes from some position. */
  lemma {:induction false} PresentSound(os: seq<Option<Tween>>)
    ensures forall t :: t in Present(os) ==> exists i :: 0 <= i < |os| && os[i] == Some(t)
    decreases |os|
  {
    if os != [] {
      var init := os[..|os| - 1];
      PresentSound(init);
      forall t | t in Present(os)
        ensures exists i :: 0 <= i < |os| && os[i] == Some(t)
      {
        if t in Present(init) {
          var i :| 0 <= i < |init| && init[i] == Some(t);
          assert os[i] == init[i];
        } else {
          assert os[|os| - 1] == Some(t);
        }
      }
    }
  }

  /** Every tween of `os` is kept. */
  lemma {:induction false} PresentComplete(os: seq<Option<Tween>>)
    ensures forall i :: 0 <= i < |os| && os[i].Some? ==> os[i].value in Present(os)
    decreases |os|
  {
    if os != [] {
      var init := os[..|os| - 1];
      PresentComplete(init);
      forall i | 0 <= i < |os| && os[i].Some?
        ensures os[i].value in Present(os)
      {
        if i < |init| {
          assert os[i] == init[i];
        }
      }
    }
  }

  /** What `autoInit` decides for each element, in document order. */
  function Starts(elements: seq<Attrs>, presets: Presets): (os: seq<Option<Tween>>)
    ensures |os| == |elements| && forall i :: 0 <= i < |elements| ==> os[i] == Dispatch(elements[i], presets)
  {
    seq(|elements|, i requires 0 <= i < |elements| => Dispatch(elements[i], presets))
  }

  /** The tweens started for the elements, in document order. */
  function AutoInit(elements: seq<Attrs>, presets: Presets): (ts: seq<Tween>)
    ensures |ts| <= |elements|
  {
    Present(Starts(elements, presets))
  }

  /** The positions of the elements that get a tween, in document order:
      each appears once, and exactly the elements with a known preset appear. */
  function Animated(elements: seq<Attrs>, presets: Presets): (idx: seq<nat>)
    ensures forall k :: 0 <= k < |idx| ==> idx[k] < |elements| && HasTween(elements[idx[k]], presets)
    ensures forall k, l :: 0 <= k < l < |idx| ==> idx[k] < idx[l]
    ensures forall i :: 0 <= i < |elements| && HasTween(elements[i], presets) ==> i in idx
  {
    PresentAt(Starts(elements, presets))
  }

  /** `autoInit` starts one tween per animated element, in document order:
      the k-th tween is the one the k-th animated element dispatches. */
  lemma AutoInitInOrder(elements: seq<Attrs>, presets: Presets)
    ensures |AutoInit(elements, presets)| == |Animated(elements, presets)|
    ensures forall k :: 0 <= k < |Animated(elements, presets)| ==>
      AutoInit(elements, presets)[k] == Dispatch(elements[Animated(elements, presets)[k]], presets).value
  {
    PresentInOrder(Starts(elements, presets));
  }

  /** Every tween started belongs to an element whose preset exists. */
  lemma AutoInitSound(elements: seq<Attrs>, presets: Presets)
    ensures forall t :: t in AutoInit(elements, presets) ==>
      exists i :: 0 <= i < |elements| && Dispatch(elements[i], presets) == Some(t)
  {
    var os := Starts(elements, presets);
    PresentSound(os);
    forall t | t in AutoInit(elements, presets)
      ensures exists i :: 0 <= i < |elements| && Dispatch(elements[i], presets) == Some(t)
    {
      var i :| 0 <= i < |os| && os[i] == Some(t);
      assert Dispatch(elements[i], presets) == Some(t);
    }
  }

  /** Every element whose preset exists gets its tween. */
  lemma AutoInitComplete(elements: seq<Attrs>, presets: Presets)
    ensures forall i :: 0 <= i < |elements| && Dispatch(elements[i], presets).Some? ==>
      Dispatch(elements[i], presets).value in AutoInit(elements, presets)
  {
    PresentComplete(Starts(elements, presets));
  }

  /** The scramble alphabet; its twelfth character is an em dash. */
  const Chars: string := "!<>-_\\/[]{}\U{2014}=+*^?#________"

  lemma AlphabetSize()
    ensures |Chars| == 26
  {
  }

  /** A letter drawn uniformly: the one at index floor(26 r) of the alphabet. */
  function RandomChar(r: real): (c: char)
    requires 0.0 <= r < 1.0
    ensures c in Chars
  {
    Chars[(r * 26.0).Floor]
  }

  /** The text shown by one scramble frame: the characters before
      `iteration` are final, each other one is drawn from the alphabet. */
  function Frame(finalText: string, iteration: real, draws: seq<real>): (f: string)
    requires |draws| == |finalText| && forall k :: 0 <= k < |draws| ==> 0.0 <= draws[k] < 1.0
    ensures |f| == |finalText|
    ensures forall i :: 0 <= i < |f| && (i as real) < iteration ==> f[i] == finalText[i]
    ensures forall i :: 0 <= i < |f| && (i as real) >= iteration ==> f[i] in Chars
  {
    seq(|finalText|, i requires 0 <= i < |finalText| =>
      if (i as real) < iteration then finalText[i] else RandomChar(draws[i]))
  }

  /** Once `iteration` has reached the length, a frame is the final text. */
  lemma FullReveal(finalText: string, iteration: real, draws: seq<real>)
    requires |draws| == |finalText| && forall k :: 0 <= k < |draws| ==> 0.0 <= draws[k] < 1.0
    requires iteration >= |finalText| as real
    ensures Frame(finalText, iteration, draws) == finalText
  {
    var f := Frame(finalText, iteration, draws);
    assert forall i :: 0 <= i < |f| ==> f[i] == finalText[i];
  }

  /** After k ticks that did not clear the interval, `iteration` is k steps. */
  function IterationAfter(step: real, k: nat): (it: real)
    ensures step > 0.0 ==> it >= 0.0
  {
    if k == 0 then 0.0 else IterationAfter(step, k - 1) + step
  }

  /** With a positive step the scramble ends: after ceil(length / step)
      ticks `iteration` has reached the length. */
  lemma {:induction false} ScrambleEnds(n: nat, step: real, k: nat)
    requires step > 0.0 && k as real * step >= n as real
    ensures IterationAfter(step, k) >= n as real
  {
    IterationLinear(step, k);
  }

  lemma {:induction false} IterationLinear(step: real, k: nat)
    ensures IterationAfter(step, k) == k as real * step
  {
    if k > 0 {
      IterationLinear(step, k - 1);
      assert (k - 1) as real * step + step == k as real * step;
    }
  }

  /** `scrambleText(element, finalText, duration = 2)`: the element's text,
      the interval's counter, and whether the interval was cleared. */
  class Scrambler {
    const finalText: string
    /** The increment `1 / (duration * 10)`. */
    const step: real
    var iteration: real
    var cleared: bool
    var text: string

    constructor (initialText: string, finalText: string, duration: Option<real>)
      requires duration.GetOr(2.0) != 0.0
      ensures this.finalText == finalText && step == 1.0 / (duration.GetOr(2.0) * 10.0)
      ensures iteration == 0.0 && !cleared && text == initialText
    {
      this.finalText := finalText;
      step := 1.0 / (duration.GetOr(2.0) * 10.0);
      iteration := 0.0;
      cleared := false;
      text := initialText;
    }

    /** One interval tick, `draws[i]` being the draw for index i. The frame
        is written first, the interval is cleared if `iteration` has reached
        the length, and then `iteration` grows by one step. A cleared
        interval does not tick. */
    method Tick(draws: seq<real>)
      requires |draws| == |finalText| && forall k :: 0 <= k < |draws| ==> 0.0 <= draws[k] < 1.0
      modifies this`iteration, this`cleared, this`text
      ensures old(cleared) ==> iteration == old(iteration) && cleared && text == old(text)
      ensures !old(cleared) ==>
        && text == Frame(finalText, old(iteration), draws)
        && cleared == (old(iteration) >= |finalText| as real)
        && iteration == old(iteration) + step
      ensures cleared && !old(cleared) ==> text == finalText
    {
      if cleared {
        return;
      }
      ghost var frame := Frame(finalText, iteration, draws);
      var letters := [];
      for i := 0 to |finalText|
        invariant letters == frame[..i]
      {
        var c := if (i as real) < iteration then finalText[i] else RandomChar(draws[i]);
        assert frame[..i + 1] == frame[..i] + [c];
        letters := letters + [c];
      }
      assert letters == frame;
      text := letters;
      if iteration >= |finalText| as real {
        FullReveal(finalText, iteration, draws);
        cleared := true;
      }
      iteration := iteration + step;
    }
  }
}
