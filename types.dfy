/** The data model shared by the report: the closed set of asset categories,
    a position record, and the two lookup tables keyed by category. */
module Types {

  /** The seven asset categories; no other value can be a category. */
  datatype AssetCategory = AH_Fund | Stock | US_Fund | Commodity | Bond | Wealth | Cash

  /** One holding. The three numbers are entered independently: none of them
      is derived from the others. */
  datatype AssetPosition = AssetPosition(
    id: string,
    name: string,
    category: AssetCategory,
    amount: real,        // current market value
    monthlyGain: real,   // gain this month
    totalGain: real      // cumulative gain
  )

  /** The key order of the label table. Every record the report builds is filled
      in this order, so this is also the order in which its entries are visited. */
  const CategoryKeys: seq<AssetCategory> := [AH_Fund, Stock, US_Fund, Commodity, Bond, Wealth, Cash]

  /** Position of a category in the key order. */
  function KeyIndex(c: AssetCategory): (i: nat)
    ensures i < |CategoryKeys| && CategoryKeys[i] == c
  {
    match c
    case AH_Fund => 0
    case Stock => 1
    case US_Fund => 2
    case Commodity => 3
    case Bond => 4
    case Wealth => 5
    case Cash => 6
  }

  /** Key positions and keys correspond one to one. */
  lemma KeyIndexInverse(k: nat)
    requires k < |CategoryKeys|
    ensures KeyIndex(CategoryKeys[k]) == k
  {
    CategoryKeysEnumerate();
  }

  /** The key order lists each of the seven categories exactly once. */
  lemma CategoryKeysEnumerate()
    ensures |CategoryKeys| == 7
    ensures forall c: AssetCategory :: c in CategoryKeys
    ensures forall i, j :: 0 <= i < j < |CategoryKeys| ==> CategoryKeys[i] != CategoryKeys[j]
  {
    forall c: AssetCategory ensures c in CategoryKeys {
      var i := KeyIndex(c);
    }
  }

  /** Display label of each category. */
  function Label(c: AssetCategory): (s: string)
    ensures |s| > 0
  {
    match c
    case AH_Fund => "A/H股基金"
    case Stock => "股票"
    case US_Fund => "美股基金"
    case Commodity => "商品"
    case Bond => "债券"
    case Wealth => "理财"
    case Cash => "活钱"
  }

  /** Fallback colour of each category. */
  function Color(c: AssetCategory): (s: string)
    ensures |s| == 7 && s[0] == '#'
    ensures forall i :: 1 <= i < 7 ==> s[i] in "0123456789abcdef"
  {
    match c
    case AH_Fund => "#c084fc"
    case Stock => "#f87171"
    case US_Fund => "#f472b6"
    case Commodity => "#fbbf24"
    case Bond => "#60a5fa"
    case Wealth => "#a78bfa"
    case Cash => "#9ca3af"
  }

  /** One label per category: distinct categories never share a label. */
  lemma LabelsDistinct(c: AssetCategory, d: AssetCategory)
    requires c != d
    ensures Label(c) != Label(d)
  {
  }

  /** One colour per category. */
  lemma ColorsDistinct(c: AssetCategory, d: AssetCategory)
    requires c != d
    ensures Color(c) != Color(d)
  {
  }
}
