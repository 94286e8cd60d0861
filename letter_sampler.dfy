/**
  `generateRandomLetter`: a weighted sampler over ten anchor letters.

  The ten letters carry fixed biases; sixteen placeholder entries (the empty
  string) carry the common bias left over from 100.  A draw `u * totalBias`
  walks the cumulative sums and stops at the first entry whose running sum
  reaches it.  Because the draw stays below `totalBias`, which the running sum
  reaches at the tenth entry, the walk never gets to a placeholder.
*/
module LetterSampler {
  import opened Draws
  import opened Text

  const Letters: seq<char> := ['E', 'A', 'R', 'I', 'O', 'T', 'N', 'S', 'L', 'C']
  const Biases: seq<real> := [11.1607, 8.4966, 7.5809, 7.5448, 7.1635, 6.9509, 6.6544, 5.7351, 5.4893, 4.5388]
  const AlphabetSize: nat := 26

  /** One entry of the weighted table. */
  datatype Weighted = Weighted(letter: string, bias: real)

  /** Sum of the first `k` biases, added left to right as `reduce` does. */
  function Cum(k: nat): real
    requires k <= |Biases|
  {
    if k == 0 then 0.0 else Cum(k - 1) + Biases[k - 1]
  }

  /** `totalBias`: the sum of all ten biases (CumValues shows that it is). */
  const TotalBias: real := 71.3150

  /** The running sums of the bias table, entry by entry. */
  lemma CumValues()
    ensures Cum(|Biases|) == TotalBias
  {
    assert Cum(1) == 11.1607;
    assert Cum(2) == 19.6573;
    assert Cum(3) == 27.2382;
    assert Cum(4) == 34.7830;
    assert Cum(5) == 41.9465;
    assert Cum(6) == 48.8974;
    assert Cum(7) == 55.5518;
    assert Cum(8) == 61.2869;
    assert Cum(9) == 66.7762;
  }

  /** Every bias is positive, so the running sums never decrease. */
  lemma {:induction false} CumMonotone(i: nat, j: nat)
    requires i <= j <= |Biases|
    ensures Cum(i) <= Cum(j)
  {
    if i < j {
      CumMonotone(i, j - 1);
    }
  }

  /** Index of the anchor letter that the cumulative walk stops at for the scaled draw `x`. */
  function SampleIndex(x: real): (i: nat)
    requires 0.0 <= x < TotalBias
    ensures i < |Letters|
  {
    SearchFrom(x, 0)
  }

  /** The walk from entry `k` on, once the running sum before `k` is known to be below `x`. */
  function SearchFrom(x: real, k: nat): (i: nat)
    requires 0.0 <= x < TotalBias
    requires k < |Letters| && (k == 0 || Cum(k) < x)
    ensures k <= i < |Letters|
    decreases |Letters| - k
  {
    CumValues();
    if x <= Cum(k + 1) then k else SearchFrom(x, k + 1)
  }

  /** The walk stops at the first entry whose running sum reaches `x`: `x` lies in that entry's interval. */
  lemma {:induction false} SearchFromInterval(x: real, k: nat)
    requires 0.0 <= x < TotalBias
    requires k < |Letters| && (k == 0 || Cum(k) < x)
    ensures var i := SearchFrom(x, k); (i == 0 || Cum(i) < x) && x <= Cum(i + 1)
    decreases |Letters| - k
  {
    CumValues();
    if x > Cum(k + 1) {
      SearchFromInterval(x, k + 1);
    }
  }

  /** `Math.random() * totalBias`: the draw scaled to the cumulative table. */
  function ScaledDraw(u: Unit): (x: real)
    ensures 0.0 <= x < TotalBias
  {
    u * TotalBias
  }

  /** The letter `generateRandomLetter` returns for the value `u` of `Math.random()`. */
  function SampleLetter(u: Unit): (s: string)
    ensures |s| == 1 && s[0] in Letters
    ensures IsLetterCell(s)
  {
    [Letters[SampleIndex(ScaledDraw(u))]]
  }


  /**
    The sampler's distribution: entry `i` is returned exactly when the scaled
    draw lies in its interval (Cum(i), Cum(i + 1)] (the first interval also
    takes 0).
  */
  lemma SampleIndexIff(x: real, i: nat)
    requires 0.0 <= x < TotalBias && i < |Letters|
    ensures SampleIndex(x) == i <==> (i == 0 || Cum(i) < x) && x <= Cum(i + 1)
  {
    var k := SampleIndex(x);
    SearchFromInterval(x, 0);
    if (i == 0 || Cum(i) < x) && x <= Cum(i + 1) && k != i {
      if k < i {
        CumMonotone(k + 1, i);
      } else {
        CumMonotone(i + 1, k);
      }
    }
  }

  /** The same statement for the letter: no two anchors are equal, so the letter names its interval. */
  lemma SampleLetterIff(u: Unit, i: nat)
    requires i < |Letters|
    ensures SampleLetter(u) == [Letters[i]] <==>
      (i == 0 || Cum(i) < ScaledDraw(u)) && ScaledDraw(u) <= Cum(i + 1)
  {
    var x := ScaledDraw(u);
    SampleIndexIff(x, i);
    var k := SampleIndex(x);
    assert SampleLetter(u) == [Letters[k]];
    if SampleLetter(u) == [Letters[i]] {
      assert Letters[k] == Letters[i];
      LettersDistinct(k, i);
    }
  }

  /** The ten anchors are pairwise different. */
  lemma LettersDistinct(i: nat, j: nat)
    requires i < |Letters| && j < |Letters| && Letters[i] == Letters[j]
    ensures i == j
  {
  }

  /** `generateRandomLetter()`, reading one value of the stream. */
  method GenerateRandomLetter(rnd: Stream, pos: nat) returns (letter: string, next: nat)
    ensures letter == SampleLetter(rnd(pos))
    ensures next == pos + 1
  {
    var totalBias := TotalBias;
    var remainingLetters := AlphabetSize - |Letters|;
    var commonBias := (100.0 - totalBias) / remainingLetters as real;

    var weightedLetters: seq<Weighted> := [];
    for i := 0 to |Letters|
      invariant |weightedLetters| == i
      invariant forall k :: 0 <= k < i ==> weightedLetters[k] == Weighted([Letters[k]], Biases[k])
    {
      weightedLetters := weightedLetters + [Weighted([Letters[i]], Biases[i])];
    }
    for i := 0 to remainingLetters
      invariant |weightedLetters| == |Letters| + i
      invariant forall k :: 0 <= k < |Letters| ==> weightedLetters[k] == Weighted([Letters[k]], Biases[k])
    {
      weightedLetters := weightedLetters + [Weighted("", commonBias)];
    }

    var randomBias := ScaledDraw(rnd(pos));
    next := pos + 1;
    CumValues();

    var cumulativeBias := 0.0;
    var i := 0;
    while i < |weightedLetters|
      invariant 0 <= i < |Letters|
      invariant cumulativeBias == Cum(i)
      invariant i == 0 || Cum(i) < randomBias
    {
      cumulativeBias := cumulativeBias + weightedLetters[i].bias;
      assert cumulativeBias == Cum(i + 1);
      if randomBias <= cumulativeBias {
        SampleIndexIff(randomBias, i);
        assert SampleLetter(rnd(pos)) == [Letters[i]];
        UpperOfLetterCell(weightedLetters[i].letter);
        letter := Upper(weightedLetters[i].letter);
        return;
      }
      i := i + 1;
    }
    // The fall-through `return ''` is unreachable: i never gets past the tenth entry.
    assert false;
    letter := "";
  }
}
