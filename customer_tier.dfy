/** The closed enumeration of loyalty tiers, each with a display name and a
    minimum number of loyalty points. */
module CustomerTiers {
  import opened Int32

  datatype CustomerTier = Bronze | Silver | Gold | Platinum
  {
    /** The name given to the constant when it is declared: a capitalised word. */
    function DisplayName(): (r: string)
      ensures |r| >= 4 && 'A' <= r[0] <= 'Z'
      ensures forall i :: 1 <= i < |r| ==> 'a' <= r[i] <= 'z'
    {
      match this
      case Bronze => "Bronze"
      case Silver => "Silver"
      case Gold => "Gold"
      case Platinum => "Platinum"
    }

    /** The points threshold given to the constant when it is declared (a Java `int`):
        never negative, and zero for Bronze alone. */
    function MinimumPoints(): (r: int32)
      ensures r >= 0
      ensures r == 0 <==> this == Bronze
    {
      match this
      case Bronze => 0
      case Silver => 1000
      case Gold => 5000
      case Platinum => 10000
    }

    /** Position of the constant in declaration order. */
    function Ordinal(): (r: nat)
      ensures r < |Values()| && Values()[r] == this
    {
      match this
      case Bronze => 0
      case Silver => 1
      case Gold => 2
      case Platinum => 3
    }
  }

  /** The constants in declaration order, each once. */
  function Values(): (r: seq<CustomerTier>)
    ensures |r| == 4
    ensures forall i, j :: 0 <= i < j < |r| ==> r[i] != r[j]
  {
    [Bronze, Silver, Gold, Platinum]
  }

  /** There are exactly four tiers: every tier is among the four constants. */
  lemma ValuesEnumerateAll(t: CustomerTier)
    ensures t in Values()
  {
  }

  /** Thresholds strictly increase in declaration order, and only then. */
  lemma MinimumPointsIncrease(t: CustomerTier, u: CustomerTier)
    ensures t.Ordinal() < u.Ordinal() <==> t.MinimumPoints() < u.MinimumPoints()
  {
  }

  /** Along the declaration order itself: 0 < 1000 < 5000 < 10000. */
  lemma ValuesSortedByThreshold(i: nat, j: nat)
    requires i < j < |Values()|
    ensures Values()[i].MinimumPoints() < Values()[j].MinimumPoints()
  {
  }

  /** Bronze is the floor: its threshold is 0, below or equal to every other,
      so every non-negative balance meets at least Bronze. */
  lemma BronzeIsFloor(t: CustomerTier, points: int)
    requires points >= 0
    ensures Bronze.MinimumPoints() <= t.MinimumPoints()
    ensures points >= Bronze.MinimumPoints() as int
  {
  }

  /** Display names identify the tier. */
  lemma DisplayNamesDistinct(t: CustomerTier, u: CustomerTier)
    ensures t.DisplayName() == u.DisplayName() <==> t == u
  {
  }
}
