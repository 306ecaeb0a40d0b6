/**
 * The forest layers of initScene in public/scene.js: how many trees each layer
 * gets for a viewport width, and which candidate location each tree's image
 * uses. Tree sizes, offsets, opacity and sway timing are presentation only.
 */
module Forest {
  import AssetResolver

  /** `approxTreeWidth` of line 150. */
  const ApproxTreeWidth: nat := 80

  /** `Math.ceil(a / b)` for a non-negative integer `a`. */
  function CeilDiv(a: nat, b: nat): (q: nat)
    requires b > 0
    ensures q * b >= a
    ensures q > 0 ==> (q - 1) * b < a
  {
    (a + b - 1) / b
  }

  /**
   * `countBack` of line 151: the fewest trees, and never fewer than 20, whose
   * nominal widths together span the viewport.
   */
  function CountBack(innerWidth: nat): (n: nat)
    ensures n >= 20
    ensures n * ApproxTreeWidth >= innerWidth
    ensures n > 20 ==> (n - 1) * ApproxTreeWidth < innerWidth
  {
    var c := CeilDiv(innerWidth, ApproxTreeWidth);
    if c < 20 then 20 else c
  }

  /**
   * `countFront` of line 152: twice the spanning count, and never fewer than 28,
   * so the front layer places a tree every half tree width.
   */
  function CountFront(innerWidth: nat): (n: nat)
    ensures n >= 28
    ensures n * (ApproxTreeWidth / 2) >= innerWidth
    ensures n > 28 ==> n % 2 == 0 && (n - 2) * (ApproxTreeWidth / 2) < innerWidth
  {
    var c := CeilDiv(innerWidth, ApproxTreeWidth) * 2;
    if c < 28 then 28 else c
  }

  /** The front layer always has at least as many trees as the back layer. */
  lemma FrontAtLeastBack(innerWidth: nat)
    ensures CountFront(innerWidth) >= CountBack(innerWidth)
  {
  }

  /** `value || ''`: the first element of a list, or the empty string. */
  function FirstOr(urls: seq<string>): string {
    if |urls| > 0 then urls[0] else ""
  }

  /** `treeUrls[i % treeUrls.length] || ''` of line 156 (an empty list gives `''`). */
  function BackTreeSource(treeUrls: seq<string>, i: nat): (src: string)
    ensures |treeUrls| > 0 ==> src in treeUrls && src == treeUrls[i % |treeUrls|]
  {
    if |treeUrls| > 0 then treeUrls[i % |treeUrls|] else ""
  }

  /** Line 167: even front trees use the first `2.png` candidate, odd ones the first `1.png` candidate. */
  function FrontTreeSource(treeUrls: seq<string>, treeUrls2: seq<string>, i: nat): string {
    if i % 2 == 0 then FirstOr(treeUrls2) else FirstOr(treeUrls)
  }

  /**
   * The `src` of every tree the two loops of lines 154-174 create, in creation
   * order.
   */
  method SpawnForest(innerWidth: nat, treeUrls: seq<string>, treeUrls2: seq<string>)
    returns (back: seq<string>, front: seq<string>)
    ensures |back| == CountBack(innerWidth) && |front| == CountFront(innerWidth)
    ensures forall i :: 0 <= i < |back| ==> back[i] == BackTreeSource(treeUrls, i)
    ensures forall i :: 0 <= i < |front| ==> front[i] == FrontTreeSource(treeUrls, treeUrls2, i)
  {
    var countBack := CountBack(innerWidth);
    var countFront := CountFront(innerWidth);
    back := [];
    for i := 0 to countBack
      invariant |back| == i
      invariant forall k :: 0 <= k < i ==> back[k] == BackTreeSource(treeUrls, k)
    {
      var src := if |treeUrls| > 0 then treeUrls[i % |treeUrls|] else "";
      back := back + [src];
    }
    front := [];
    for i := 0 to countFront
      invariant |front| == i
      invariant forall k :: 0 <= k < i ==> front[k] == FrontTreeSource(treeUrls, treeUrls2, k)
    {
      var src := if i % 2 == 0 then FirstOr(treeUrls2) else FirstOr(treeUrls);
      front := front + [src];
    }
  }

  /**
   * With the list resolveUrl produces for `1.png` (line 147), the index of line
   * 156 is always in range and the `''` fallback is never taken: back tree `i`
   * uses candidate `i % 5`, whether or not that candidate loads.
   */
  lemma BackTreeSourceResolved(i: nat)
    ensures var treeUrls := AssetResolver.ImageCandidates("1.png");
      && BackTreeSource(treeUrls, i) == treeUrls[i % 5]
      && BackTreeSource(treeUrls, i) != ""
      && AssetResolver.EndsWith(BackTreeSource(treeUrls, i), "1.png")
  {
    var treeUrls := AssetResolver.ImageCandidates("1.png");
    assert AssetResolver.EndsWith(treeUrls[i % 5], "1.png");
  }

  /** Front trees alternate between the first `2.png` and the first `1.png` candidate (line 167). */
  lemma FrontTreeSourceResolved(i: nat)
    ensures FrontTreeSource(AssetResolver.ImageCandidates("1.png"), AssetResolver.ImageCandidates("2.png"), i)
            == if i % 2 == 0 then "/images/2.png" else "/images/1.png"
  {
    assert "/images/" + "1.png" == "/images/1.png";
    assert "/images/" + "2.png" == "/images/2.png";
  }
}
