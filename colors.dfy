/** The random hex colour given to each tracker (`getRandomColor`). */
module Colors {

  /** The alphabet the colour's digits are drawn from. */
  const Letters: string := "0123456789ABCDEF"

  /** Number of hex digits after the leading '#'. */
  const DigitCount: nat := 6

  /** The six draws of `Math.floor(Math.random() * 16)`, supplied by the caller. */
  predicate ValidDraws(draws: seq<int>)
  {
    |draws| == DigitCount && forall i :: 0 <= i < |draws| ==> 0 <= draws[i] < |Letters|
  }

  /** Reference definition: the digits named by the draws, in order. */
  function HexDigits(draws: seq<int>): seq<char>
    requires forall i :: 0 <= i < |draws| ==> 0 <= draws[i] < |Letters|
  {
    if draws == [] then [] else [Letters[draws[0]]] + HexDigits(draws[1..])
  }

  function ColorOf(draws: seq<int>): string
    requires ValidDraws(draws)
  {
    "#" + HexDigits(draws)
  }

  lemma {:induction false} HexDigitsAt(draws: seq<int>, k: int)
    requires forall i :: 0 <= i < |draws| ==> 0 <= draws[i] < |Letters|
    requires 0 <= k < |draws|
    ensures |HexDigits(draws)| == |draws|
    ensures HexDigits(draws)[k] == Letters[draws[k]]
  {
    if k == 0 {
      HexDigitsLength(draws);
    } else {
      HexDigitsAt(draws[1..], k - 1);
    }
  }

  lemma {:induction false} HexDigitsLength(draws: seq<int>)
    requires forall i :: 0 <= i < |draws| ==> 0 <= draws[i] < |Letters|
    ensures |HexDigits(draws)| == |draws|
  {
    if draws != [] {
      HexDigitsLength(draws[1..]);
    }
  }

  /** A colour is '#' and six characters of the alphabet, each named by its draw. */
  lemma ColorOfShape(draws: seq<int>)
    requires ValidDraws(draws)
    ensures |ColorOf(draws)| == 7 && ColorOf(draws)[0] == '#'
    ensures forall i :: 1 <= i < 7 ==> ColorOf(draws)[i] == Letters[draws[i - 1]] && ColorOf(draws)[i] in Letters
  {
    HexDigitsLength(draws);
    forall i | 1 <= i < 7
      ensures ColorOf(draws)[i] == Letters[draws[i - 1]]
    {
      HexDigitsAt(draws, i - 1);
    }
  }

  /** `getRandomColor`: starts from "#" and appends one letter per draw, six times. */
  method RandomColor(draws: seq<int>) returns (color: string)
    requires ValidDraws(draws)
    ensures |color| == 7 && color[0] == '#'
    ensures forall i :: 1 <= i < 7 ==> color[i] == Letters[draws[i - 1]]
    ensures color == ColorOf(draws)
  {
    color := "#";
    for i := 0 to DigitCount
      invariant |color| == i + 1 && color[0] == '#'
      invariant forall k :: 1 <= k <= i ==> color[k] == Letters[draws[k - 1]]
    {
      color := color + [Letters[draws[i]]];
    }
    ColorOfShape(draws);
  }
}
