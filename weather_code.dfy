/**
 * The weather classifier: a provider weather code is turned into one of six
 * labels, which are also the names of the widget's icon assets.
 */
module WeatherCode {

  /** The closed set of labels the classifier can produce. */
  datatype Label = Sunny | Cloudy | Overcast | Rainy | Snow | Thunder

  /** The label as the widget spells it; it names the icon file. */
  function Name(l: Label): string
  {
    match l
    case Sunny => "sunny"
    case Cloudy => "cloudy"
    case Overcast => "overcast"
    case Rainy => "rainy"
    case Snow => "snow"
    case Thunder => "thunder"
  }

  /**
   * The classifier as `stringifyWeatherCode` in updateWeather.js writes it: an ordered chain of comparisons,
   * first match wins. Its contract is the range-by-range reading of that chain:
   * each label owns exactly the codes listed, so the six ranges partition the
   * integers (negative and very large codes included).
   */
  function Classify(code: int): (r: Label)
    ensures r == Sunny <==> code <= 1
    ensures r == Cloudy <==> code == 2
    ensures r == Overcast <==> 3 <= code <= 50
    ensures r == Rainy <==> 51 <= code <= 70 || 80 <= code <= 83
    ensures r == Snow <==> 71 <= code <= 79 || 84 <= code <= 90
    ensures r == Thunder <==> 90 < code
  {
    if code <= 1 then Sunny
    else if code == 2 then Cloudy
    else if code <= 50 then Overcast
    else if code <= 70 then Rainy
    else if code <= 79 then Snow
    else if code <= 83 then Rainy
    else if code <= 90 then Snow
    else Thunder
  }

  /** The string `stringifyWeatherCode` returns; always one of the six icon names. */
  function StringifyWeatherCode(code: int): (s: string)
    ensures s in {"sunny", "cloudy", "overcast", "rainy", "snow", "thunder"}
    ensures s == "thunder" <==> 90 < code
  {
    Name(Classify(code))
  }

  /** Distinct labels have distinct names, so a name determines its label. */
  lemma NameInjective(a: Label, b: Label)
    ensures Name(a) == Name(b) ==> a == b
  {
  }

  // An independent statement of the policy: an ordered table of bands, each
  // with an inclusive upper bound, and a catch-all label past the last band.

  datatype Band = Band(upTo: int, tag: Label)

  const Bands: seq<Band> := [
    Band(1, Sunny), Band(2, Cloudy), Band(50, Overcast),
    Band(70, Rainy), Band(79, Snow), Band(83, Rainy), Band(90, Snow)
  ]

  /** The label of the first band whose bound admits `code`, else `otherwise`. */
  function FirstMatch(bands: seq<Band>, code: int, otherwise: Label): Label
  {
    if bands == [] then otherwise
    else if code <= bands[0].upTo then bands[0].tag
    else FirstMatch(bands[1..], code, otherwise)
  }

  /** The bounds strictly increase, so no band is shadowed by an earlier one. */
  ghost predicate StrictlyAscending(bands: seq<Band>)
  {
    forall i, j :: 0 <= i < j < |bands| ==> bands[i].upTo < bands[j].upTo
  }

  /**
   * In a strictly ascending table, a code lands in band `k` exactly when it is
   * above the previous bound and at most band `k`'s own bound.
   */
  lemma {:induction false} FirstMatchBand(bands: seq<Band>, code: int, otherwise: Label, k: nat)
    requires StrictlyAscending(bands)
    requires k < |bands|
    requires k == 0 || bands[k - 1].upTo < code
    requires code <= bands[k].upTo
    ensures FirstMatch(bands, code, otherwise) == bands[k].tag
  {
    if k > 0 {
      assert bands[0].upTo <= bands[k - 1].upTo;
      assert StrictlyAscending(bands[1..]) by {
        forall i, j | 0 <= i < j < |bands[1..]|
          ensures bands[1..][i].upTo < bands[1..][j].upTo
        {
          assert bands[1..][i] == bands[i + 1] && bands[1..][j] == bands[j + 1];
        }
      }
      assert bands[1..][k - 1] == bands[k];
      assert k - 1 == 0 || bands[1..][k - 2] == bands[k - 1];
      FirstMatchBand(bands[1..], code, otherwise, k - 1);
    }
  }

  /** Past the last bound of an ascending table, the catch-all label applies. */
  lemma {:induction false} FirstMatchPastEnd(bands: seq<Band>, code: int, otherwise: Label)
    requires StrictlyAscending(bands)
    requires bands != [] && bands[|bands| - 1].upTo < code
    ensures FirstMatch(bands, code, otherwise) == otherwise
  {
    assert bands[0].upTo <= bands[|bands| - 1].upTo;
    if |bands| > 1 {
      assert StrictlyAscending(bands[1..]) by {
        forall i, j | 0 <= i < j < |bands[1..]|
          ensures bands[1..][i].upTo < bands[1..][j].upTo
        {
          assert bands[1..][i] == bands[i + 1] && bands[1..][j] == bands[j + 1];
        }
      }
      assert bands[1..][|bands| - 2] == bands[|bands| - 1];
      FirstMatchPastEnd(bands[1..], code, otherwise);
    } else {
      assert bands[1..] == [];
    }
  }

  /** The comparison chain and the band table agree on every integer. */
  lemma ClassifyIsFirstMatch(code: int)
    ensures Classify(code) == FirstMatch(Bands, code, Thunder)
  {
    assert StrictlyAscending(Bands);
    if code <= 1 { FirstMatchBand(Bands, code, Thunder, 0); }
    else if code <= 2 { FirstMatchBand(Bands, code, Thunder, 1); }
    else if code <= 50 { FirstMatchBand(Bands, code, Thunder, 2); }
    else if code <= 70 { FirstMatchBand(Bands, code, Thunder, 3); }
    else if code <= 79 { FirstMatchBand(Bands, code, Thunder, 4); }
    else if code <= 83 { FirstMatchBand(Bands, code, Thunder, 5); }
    else if code <= 90 { FirstMatchBand(Bands, code, Thunder, 6); }
    else { FirstMatchPastEnd(Bands, code, Thunder); }
  }

  /**
   * The banding is not monotone: rain and snow alternate as codes grow, so no
   * ordering of labels makes the classifier order-preserving.
   */
  lemma NotMonotone()
    ensures exists a: int, b: int, c: int ::
              a < b < c && Classify(a) == Classify(c) == Rainy && Classify(b) == Snow
  {
    assert Classify(70) == Rainy && Classify(71) == Snow && Classify(80) == Rainy;
  }

  /** The worked examples of the classification policy. */
  lemma ClassifyExamples()
    ensures Classify(0) == Sunny && Classify(2) == Cloudy && Classify(45) == Overcast
    ensures Classify(63) == Rainy && Classify(75) == Snow && Classify(82) == Rainy
    ensures Classify(95) == Thunder && Classify(-7) == Sunny && Classify(1000) == Thunder
  {
  }
}
