/**
 * `AQI_CATEGORIES` and `get_aqi_category`: six closed bands scanned in
 * ascending order, the first band containing the value naming its category.
 */
module AqiCategories {

  datatype Category =
    | Good | Moderate | UnhealthySensitiveGroup | Unhealthy | VeryUnhealthy | Severe | Unknown

  /** The string the service returns for a category. */
  function Name(c: Category): string
  {
    match c
    case Good => "GOOD"
    case Moderate => "MODERATE"
    case UnhealthySensitiveGroup => "UNHEALTHY_SENSITIVE_GROUP"
    case Unhealthy => "UNHEALTHY"
    case VeryUnhealthy => "VERY_UNHEALTHY"
    case Severe => "SEVERE"
    case Unknown => "UNKNOWN"
  }

  /** Different categories are reported under different names. */
  lemma NamesDistinct(a: Category, b: Category)
    ensures Name(a) == Name(b) <==> a == b
  {
  }

  /** Upper end of a band: a number, or `float('inf')`. */
  datatype Upper = AtMost(bound: real) | Unbounded

  /** The closed band [low, high] and its category. */
  datatype Band = Band(low: real, high: Upper, category: Category)

  predicate Contains(b: Band, x: real)
  {
    b.low <= x && (b.high.AtMost? ==> x <= b.high.bound)
  }

  /** The table, in the order the dictionary is iterated. */
  const Bands: seq<Band> := [
    Band(0.0, AtMost(50.0), Good),
    Band(51.0, AtMost(100.0), Moderate),
    Band(101.0, AtMost(150.0), UnhealthySensitiveGroup),
    Band(151.0, AtMost(200.0), Unhealthy),
    Band(201.0, AtMost(300.0), VeryUnhealthy),
    Band(301.0, Unbounded, Severe)
  ]

  /** The scan: the category of the first band holding x, Unknown when none does. */
  function FirstMatch(bands: seq<Band>, x: real): Category
  {
    if bands == [] then Unknown
    else if Contains(bands[0], x) then bands[0].category
    else FirstMatch(bands[1..], x)
  }

  /**
   * `get_aqi_category`: the category of the band holding x, Unknown exactly
   * when no band holds it.
   */
  function GetAqiCategory(x: real): (c: Category)
    ensures c == Unknown <==> forall b :: b in Bands ==> !Contains(b, x)
    ensures forall b :: b in Bands && Contains(b, x) ==> c == b.category
  {
    ScanOfTheTable(x);
    FirstMatch(Bands, x)
  }

  /** The scan over the table finds the one band holding x; no band is labelled Unknown. */
  lemma ScanOfTheTable(x: real)
    ensures FirstMatch(Bands, x) == Unknown <==> forall b :: b in Bands ==> !Contains(b, x)
    ensures forall b :: b in Bands && Contains(b, x) ==> FirstMatch(Bands, x) == b.category
  {
    BandsPairwiseDisjoint();
    forall b | b in Bands && Contains(b, x)
      ensures FirstMatch(Bands, x) == b.category
    {
      FirstMatchIsTheMatch(Bands, x, b);
    }
    if forall b :: b in Bands ==> !Contains(b, x) {
      FirstMatchNone(Bands, x);
    }
  }

  /**
   * The category of every value: the six closed bands, and Unknown below 0
   * and in the gaps between consecutive bands (50 < x < 51, and so on).
   */
  lemma CategoryTable(x: real)
    ensures GetAqiCategory(x) == Good <==> 0.0 <= x <= 50.0
    ensures GetAqiCategory(x) == Moderate <==> 51.0 <= x <= 100.0
    ensures GetAqiCategory(x) == UnhealthySensitiveGroup <==> 101.0 <= x <= 150.0
    ensures GetAqiCategory(x) == Unhealthy <==> 151.0 <= x <= 200.0
    ensures GetAqiCategory(x) == VeryUnhealthy <==> 201.0 <= x <= 300.0
    ensures GetAqiCategory(x) == Severe <==> 301.0 <= x
    ensures GetAqiCategory(x) == Unknown <==>
      x < 0.0 || 50.0 < x < 51.0 || 100.0 < x < 101.0 || 150.0 < x < 151.0
      || 200.0 < x < 201.0 || 300.0 < x < 301.0
  {
    var b := Bands;
    assert FirstMatch(b, x) == if Contains(b[0], x) then Good else FirstMatch(b[1..], x);
    assert FirstMatch(b[1..], x) == if Contains(b[1], x) then Moderate else FirstMatch(b[2..], x);
    assert FirstMatch(b[2..], x) == if Contains(b[2], x) then UnhealthySensitiveGroup else FirstMatch(b[3..], x);
    assert FirstMatch(b[3..], x) == if Contains(b[3], x) then Unhealthy else FirstMatch(b[4..], x);
    assert FirstMatch(b[4..], x) == if Contains(b[4], x) then VeryUnhealthy else FirstMatch(b[5..], x);
    assert FirstMatch(b[5..], x) == if Contains(b[5], x) then Severe else FirstMatch(b[6..], x);
    assert b[6..] == [];
  }

  /** Two bands that cannot hold a common value: one ends before the other starts. */
  predicate Disjoint(a: Band, b: Band)
  {
    (a.high.AtMost? && a.high.bound < b.low) || (b.high.AtMost? && b.high.bound < a.low)
  }

  /** No two different bands of a table overlap. */
  predicate PairwiseDisjoint(bands: seq<Band>)
  {
    forall i, j :: 0 <= i < |bands| && 0 <= j < |bands| && bands[i] != bands[j] ==> Disjoint(bands[i], bands[j])
  }

  /** The six bands of the table do not overlap. */
  lemma BandsPairwiseDisjoint()
    ensures PairwiseDisjoint(Bands)
  {
    forall i, j | 0 <= i < |Bands| && 0 <= j < |Bands| && Bands[i] != Bands[j]
      ensures Disjoint(Bands[i], Bands[j])
    {
      if i < j {
        assert Bands[i].high.bound < Bands[j].low;
      } else {
        assert Bands[j].high.bound < Bands[i].low;
      }
    }
  }

  /** In a table without overlaps the scan returns the category of the one band holding x. */
  lemma {:induction false} FirstMatchIsTheMatch(bands: seq<Band>, x: real, b: Band)
    requires PairwiseDisjoint(bands)
    requires b in bands && Contains(b, x)
    ensures FirstMatch(bands, x) == b.category
  {
    if bands[0] != b {
      assert Disjoint(bands[0], b) by {
        var j :| 0 <= j < |bands| && bands[j] == b;
        assert bands[0] != bands[j];
      }
      assert !Contains(bands[0], x);
      assert b in bands[1..] by {
        var j :| 0 <= j < |bands| && bands[j] == b;
        assert bands[1..][j - 1] == b;
      }
      assert PairwiseDisjoint(bands[1..]) by {
        forall i, j | 0 <= i < |bands[1..]| && 0 <= j < |bands[1..]| && bands[1..][i] != bands[1..][j]
          ensures Disjoint(bands[1..][i], bands[1..][j])
        {
          assert bands[1..][i] == bands[i + 1] && bands[1..][j] == bands[j + 1];
        }
      }
      FirstMatchIsTheMatch(bands[1..], x, b);
    }
  }

  /** When no band holds x the scan returns Unknown. */
  lemma {:induction false} FirstMatchNone(bands: seq<Band>, x: real)
    requires forall b :: b in bands ==> !Contains(b, x)
    ensures FirstMatch(bands, x) == Unknown
  {
    if bands != [] {
      assert bands[0] in bands;
      assert forall b :: b in bands[1..] ==> b in bands;
      FirstMatchNone(bands[1..], x);
    }
  }

  /** The order of the scan does not matter: any permutation of the table gives the same category. */
  lemma ScanOrderIrrelevant(bands: seq<Band>, x: real)
    requires multiset(bands) == multiset(Bands)
    ensures FirstMatch(bands, x) == GetAqiCategory(x)
  {
    SameBands(bands, Bands);
    BandsPairwiseDisjoint();
    DisjointSubTable(bands, Bands);
    if b :| b in Bands && Contains(b, x) {
      FirstMatchIsTheMatch(bands, x, b);
      FirstMatchIsTheMatch(Bands, x, b);
    } else {
      FirstMatchNone(bands, x);
      FirstMatchNone(Bands, x);
    }
  }

  /** Two permutations of one another hold the same bands. */
  lemma SameBands(a: seq<Band>, b: seq<Band>)
    requires multiset(a) == multiset(b)
    ensures forall band :: band in a <==> band in b
  {
    forall band
      ensures band in a <==> band in b
    {
      assert band in a <==> band in multiset(a);
      assert band in b <==> band in multiset(b);
    }
  }

  /** Bands all taken from a table without overlaps do not overlap either. */
  lemma DisjointSubTable(bands: seq<Band>, table: seq<Band>)
    requires PairwiseDisjoint(table)
    requires forall b :: b in bands ==> b in table
    ensures PairwiseDisjoint(bands)
  {
    forall i, j | 0 <= i < |bands| && 0 <= j < |bands| && bands[i] != bands[j]
      ensures Disjoint(bands[i], bands[j])
    {
      assert bands[i] in table && bands[j] in table;
      var i' :| 0 <= i' < |table| && table[i'] == bands[i];
      var j' :| 0 <= j' < |table| && table[j'] == bands[j];
    }
  }
}
