/** The operator catalog: the fixed table from an operator-type code to a
    display name that both analysis scripts share, and its inverse. */
module OperatorCatalog {
  import opened Wrappers
  import Decimal

  /** The seven codes the table knows. */
  predicate IsKnownCode(code: int) {
    code in {2, 3, 10, 13, 14, 52, 53}
  }

  /** The display name of an operator type; total over all integers. */
  function OperatorTypeName(code: int): (name: string)
    ensures |name| > 0
    ensures !IsKnownCode(code) ==> name == "Unknown(" + Decimal.IntToDecimal(code) + ")"
  {
    match code
    case 2 => "Filter"
    case 3 => "HashAgg"
    case 10 => "Project"
    case 13 => "Screen"
    case 14 => "SelectionVectorRemover"
    case 52 => "IcebergManifestList"
    case 53 => "TableFunction"
    case _ => "Unknown(" + Decimal.IntToDecimal(code) + ")"
  }

  /** Recovers the code from a display name: a reverse lookup in the table,
      or the number written between "Unknown(" and ")". */
  function CodeOfName(name: string): Option<int> {
    if name == "Filter" then Some(2)
    else if name == "HashAgg" then Some(3)
    else if name == "Project" then Some(10)
    else if name == "Screen" then Some(13)
    else if name == "SelectionVectorRemover" then Some(14)
    else if name == "IcebergManifestList" then Some(52)
    else if name == "TableFunction" then Some(53)
    else if |name| > 9 && name[..8] == "Unknown(" && name[|name| - 1] == ')' then
      Decimal.ParseInt(name[8..|name| - 1])
    else None
  }

  /** Every name the catalog produces determines its code. */
  lemma NameRoundTrip(code: int)
    ensures CodeOfName(OperatorTypeName(code)) == Some(code)
  {
    if !IsKnownCode(code) {
      var digits := Decimal.IntToDecimal(code);
      var name := "Unknown(" + digits + ")";
      assert name[0] == 'U';
      assert name[..8] == "Unknown(";
      assert name[8..|name| - 1] == digits;
      Decimal.IntRoundTrip(code);
    }
  }

  /** Distinct codes get distinct names. */
  lemma NameInjective(a: int, b: int)
    ensures OperatorTypeName(a) == OperatorTypeName(b) ==> a == b
  {
    NameRoundTrip(a);
    NameRoundTrip(b);
  }
}
