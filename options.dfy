/** generateColorOptions: the target followed by distinct distractors,
    collected by a retry loop and then shuffled. */
module Options {
  import opened Wrappers
  import opened Colors
  import opened Difficulty

  /** Pairwise distinct as strings: the test `options.includes` applies. */
  predicate Distinct(s: seq<Color>) {
    forall i, j :: 0 <= i < j < |s| ==> s[i] != s[j]
  }

  /** In a list of distinct colours, each member occurs exactly once. */
  lemma {:induction false} DistinctOccursOnce(s: seq<Color>, x: Color)
    requires Distinct(s) && x in s
    ensures multiset(s)[x] == 1
  {
    assert s == [s[0]] + s[1..];
    assert multiset(s) == multiset{s[0]} + multiset(s[1..]);
    if s[0] == x {
      assert x !in s[1..] by {
        forall k | 0 <= k < |s[1..]| ensures s[1..][k] != x { assert s[k + 1] != s[0]; }
      }
    } else {
      DistinctOccursOnce(s[1..], x);
    }
  }

  /** How many Math.random() draws one candidate consumes: six for
      generateRandomColor, three (red, green, blue) for adjustColor. */
  function DrawsPerCandidate(t: Tier): nat {
    match t
    case Easy => 6
    case Medium => 6
    case Hard => 3
  }

  /** The variation the hard tier passes to adjustColor: colorVariation * 0.25. */
  function Variation(t: Tier): Fraction {
    Fraction(Level(t).colorVariation, 4)
  }

  /** One candidate colour: a random colour in the easy and medium tiers, an
      adjustment of the target in the hard tier. */
  function Candidate(target: Color, t: Tier, u: seq<Draw>): Color
    requires |u| == DrawsPerCandidate(t)
    requires t == Hard ==> IsHexColor(target)
  {
    match t
    case Easy => RandomColor(u)
    case Medium => RandomColor(u)
    case Hard => AdjustColor(target, Variation(t), u)
  }

  /** What a distractor of each tier looks like: an upper-case random colour
      in the easy and medium tiers; in the hard tier a lower-case colour whose
      channels are within [-2, +1] of the target's. */
  predicate IsDistractor(target: Color, t: Tier, c: Color) {
    if t == Hard then
      IsHexColor(target) && IsLowerHexColor(c) && IsHexColor(c) && NearColor(Hex2Rgb(c), Hex2Rgb(target))
    else
      IsUpperHexColor(c)
  }

  lemma CandidateIsDistractor(target: Color, t: Tier, u: seq<Draw>)
    requires |u| == DrawsPerCandidate(t)
    requires t == Hard ==> IsHexColor(target)
    ensures IsDistractor(target, t, Candidate(target, t, u))
  {
    if t == Hard {
      assert Variation(t) == HardVariation;
      HardAdjustIsNear(target, u);
    } else {
      RandomColorChannels(u);
    }
  }

  /** The medium tier builds its candidates exactly as the easy tier does:
      its colour variation is never read, so its distractors are unrelated
      random colours, not closer shades. */
  lemma MediumLikeEasy(target: Color, u: seq<Draw>)
    requires |u| == 6
    ensures Candidate(target, Medium, u) == Candidate(target, Easy, u) == RandomColor(u)
    ensures IsDistractor(target, Medium, Candidate(target, Medium, u))
  {
    RandomColorChannels(u);
  }

  /** The retry loop, on the draws still unused: while fewer than optionCount
      colours are held, build a candidate and keep it unless it is already
      held. None when the draws run out first. */
  function Grow(target: Color, t: Tier, options: seq<Color>, u: seq<Draw>): Option<seq<Color>>
    requires t == Hard ==> IsHexColor(target)
    decreases |u|
  {
    if |options| >= Level(t).optionCount then Some(options)
    else if |u| < DrawsPerCandidate(t) then None
    else
      var c := Candidate(target, t, u[..DrawsPerCandidate(t)]);
      Grow(target, t, if c in options then options else options + [c], u[DrawsPerCandidate(t)..])
  }

  /** A list under construction: the target first, then distinct distractors. */
  predicate GoodPartial(target: Color, t: Tier, options: seq<Color>) {
    && |options| >= 1
    && options[0] == target
    && Distinct(options)
    && forall i :: 1 <= i < |options| ==> IsDistractor(target, t, options[i])
  }

  /** The loop only ever appends accepted candidates: when it finishes, it
      holds exactly optionCount distinct colours, the target first and the
      distractors after it, and what it started with is a prefix. */
  lemma {:induction false} GrowSpec(target: Color, t: Tier, options: seq<Color>, u: seq<Draw>)
    requires t == Hard ==> IsHexColor(target)
    requires GoodPartial(target, t, options) && |options| <= Level(t).optionCount
    ensures Grow(target, t, options, u).Some? ==>
      var r := Grow(target, t, options, u).value;
      GoodPartial(target, t, r) && |r| == Level(t).optionCount && options <= r
    decreases |u|
  {
    if |options| < Level(t).optionCount && |u| >= DrawsPerCandidate(t) {
      var c := Candidate(target, t, u[..DrawsPerCandidate(t)]);
      CandidateIsDistractor(target, t, u[..DrawsPerCandidate(t)]);
      var next := if c in options then options else options + [c];
      assert GoodPartial(target, t, next) by {
        if c !in options {
          assert c != target;
          forall i, j | 0 <= i < j < |next| ensures next[i] != next[j] {
            if j == |options| { assert next[i] == options[i]; assert options[i] in options; }
          }
        }
      }
      GrowSpec(target, t, next, u[DrawsPerCandidate(t)..]);
    }
  }

  /** One transposition of positions i and j. */
  function Swap(s: seq<Color>, i: nat, j: nat): (r: seq<Color>)
    requires i < |s| && j < |s|
    ensures |r| == |s| && multiset(r) == multiset(s)
    ensures Distinct(s) ==> Distinct(r)
  {
    var r := s[i := s[j]][j := s[i]];
    assert forall k :: 0 <= k < |s| ==> r[k] == s[if k == i then j else if k == j then i else k];
    r
  }

  /** options.sort(() => Math.random() - 0.5): the comparator is random, so the
      order it yields is given as a caller-chosen list of transpositions
      (positions taken modulo the length), so the result is always a
      reordering of the input. */
  function Shuffle(s: seq<Color>, swaps: seq<(nat, nat)>): (r: seq<Color>)
    ensures |r| == |s| && multiset(r) == multiset(s)
    ensures Distinct(s) ==> Distinct(r)
    decreases |swaps|
  {
    if swaps == [] || |s| == 0 then s
    else Shuffle(Swap(s, swaps[0].0 % |s|, swaps[0].1 % |s|), swaps[1..])
  }

  /** The options generateColorOptions returns: the collected list, shuffled;
      None when the draws run out. */
  function ColorOptions(target: Color, t: Tier, u: seq<Draw>, swaps: seq<(nat, nat)>): Option<seq<Color>>
    requires t == Hard ==> IsHexColor(target)
  {
    match Grow(target, t, [target], u)
    case None => None
    case Some(options) => Some(Shuffle(options, swaps))
  }

  /** Whatever the draws and the shuffle, finished options hold exactly
      optionCount distinct colours, include the target, are a permutation of
      the collected list, and every other colour is a distractor of the tier. */
  lemma ColorOptionsSpec(target: Color, t: Tier, u: seq<Draw>, swaps: seq<(nat, nat)>)
    requires t == Hard ==> IsHexColor(target)
    ensures ColorOptions(target, t, u, swaps).Some? <==> Grow(target, t, [target], u).Some?
    ensures ColorOptions(target, t, u, swaps).Some? ==>
      var r := ColorOptions(target, t, u, swaps).value;
      && multiset(r) == multiset(Grow(target, t, [target], u).value)
      && |r| == Level(t).optionCount && Distinct(r) && target in r
      && multiset(r)[target] == 1
      && forall c :: c in r && c != target ==> IsDistractor(target, t, c)
  {
    GrowSpec(target, t, [target], u);
    if Grow(target, t, [target], u).Some? {
      var options := Grow(target, t, [target], u).value;
      var r := Shuffle(options, swaps);
      assert target in multiset(r) by { assert options[0] == target; }
      DistinctOccursOnce(r, target);
      forall c | c in r && c != target ensures IsDistractor(target, t, c) {
        assert c in multiset(options);
        var i :| 0 <= i < |options| && options[i] == c;
      }
    }
  }

  /** generateColorOptions(correctColor, difficulty), with the Math.random()
      draws of the candidates in `u` and the shuffle in `swaps`. The source
      retries without bound; here None reports that the draws ran out. */
  method GenerateColorOptions(target: Color, t: Tier, u: seq<Draw>, swaps: seq<(nat, nat)>)
    returns (r: Option<seq<Color>>)
    requires t == Hard ==> IsHexColor(target)
    ensures r == ColorOptions(target, t, u, swaps)
    ensures r.Some? ==> |r.value| == Level(t).optionCount && Distinct(r.value) && target in r.value
    ensures r.Some? ==> forall c :: c in r.value && c != target ==> IsDistractor(target, t, c)
  {
    var options := [target];
    var k := 0;
    var n := DrawsPerCandidate(t);
    while |options| < Level(t).optionCount
      invariant 0 <= k <= |u|
      invariant Grow(target, t, options, u[k..]) == Grow(target, t, [target], u)
      decreases |u| - k
    {
      if |u| - k < n {
        return None;
      }
      var newColor;
      if t == Easy {
        newColor := GenerateRandomColor(u[k..k + 6]);
      } else if t == Medium {
        newColor := GenerateRandomColor(u[k..k + 6]);
      } else {
        newColor := AdjustColor(target, Variation(t), u[k..k + 3]);
      }
      assert u[k..][..n] == u[k..k + n] && u[k..][n..] == u[k + n..];
      if newColor !in options {
        options := options + [newColor];
      }
      k := k + n;
    }
    assert Grow(target, t, [target], u) == Some(options);
    r := Some(Shuffle(options, swaps));
    ColorOptionsSpec(target, t, u, swaps);
  }

  // ---------------------------------------------------------------------
  // A concrete run of the retry loop

  /** Six equal draws j/16: each selects the letter Letters[j]. */
  function Uniform(j: nat): seq<Draw>
    requires j < 16
  {
    var d: Draw := Fraction(j, 16);
    [d, d, d, d, d, d]
  }

  /** The colour generateRandomColor builds from Uniform(j); its second
      character is Letters[j]. */
  function UniformColor(j: nat): (c: Color)
    requires j < 16
    ensures |c| == 7 && c[1] == Letters[j]
  {
    assert Scale(Fraction(j, 16), 16) == j;
    RandomColor(Uniform(j))
  }

  /** Candidate draws for the colours k, k+1, ..., 5. */
  function UniformDraws(k: nat): seq<Draw>
    requires 1 <= k <= 6
    decreases 6 - k
  {
    if k == 6 then [] else Uniform(k) + UniformDraws(k + 1)
  }

  /** The first k uniform colours. */
  function UniformHeld(k: nat): seq<Color>
    requires k <= 16
  {
    seq(k, i requires 0 <= i < k => UniformColor(i))
  }

  /** Starting from the first k uniform colours, the easy-tier loop accepts
      every remaining uniform colour, since each is new, and stops at six. */
  lemma {:induction false} GrowUniform(k: nat)
    requires 1 <= k <= 6
    ensures Grow(UniformColor(0), Easy, UniformHeld(k), UniformDraws(k)) == Some(UniformHeld(6))
    decreases 6 - k
  {
    if k < 6 {
      var u := UniformDraws(k);
      assert u[..6] == Uniform(k) && u[6..] == UniformDraws(k + 1);
      var c := UniformColor(k);
      assert c !in UniformHeld(k) by {
        forall i | 0 <= i < k ensures UniformHeld(k)[i] != c {
          LettersAreDigits(i);
          LettersAreDigits(k);
          assert UniformHeld(k)[i][1] == Letters[i] != Letters[k];
        }
      }
      assert UniformHeld(k) + [c] == UniformHeld(k + 1);
      GrowUniform(k + 1);
    }
  }
}
