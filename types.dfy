/**
 * The shared data model of the statement extractor: the canonical
 * transaction record and the two closed enumerations, with their
 * string labels.
 */
module Types {
  import opened Wrappers

  /**
   * One statement line. The amounts are held as integer cents: the
   * exporter prints them with exactly two decimals, so cents is the
   * precision that reaches the output.
   */
  datatype Transaction = Transaction(date: string, detail: string, movement: int, balance: int)

  /** The nine supported banks, in declaration order. */
  datatype Bank =
    | Popular
    | Occidente
    | Davivienda
    | Bogota
    | Bbva
    | Bancoomeva
    | Bancolombia
    | AvVillas
    | Agrario

  /** The string value each bank carries; it is both the UI label and the extraction hint. */
  function BankLabel(b: Bank): string
  {
    match b
    case Popular => "Banco Popular"
    case Occidente => "Banco Occidente"
    case Davivienda => "Davivienda"
    case Bogota => "Banco Bogota"
    case Bbva => "Banco BBVA"
    case Bancoomeva => "Bancoomeva"
    case Bancolombia => "Bancolombia"
    case AvVillas => "AvVillas"
    case Agrario => "Banco Agrario"
  }

  /** Position of a bank in the enumeration's declaration. */
  function BankOrdinal(b: Bank): (r: nat)
    ensures r < 9
  {
    match b
    case Popular => 0
    case Occidente => 1
    case Davivienda => 2
    case Bogota => 3
    case Bbva => 4
    case Bancoomeva => 5
    case Bancolombia => 6
    case AvVillas => 7
    case Agrario => 8
  }

  /** Distinct banks have distinct positions. */
  lemma BankOrdinalInjective(a: Bank, b: Bank)
    ensures BankOrdinal(a) == BankOrdinal(b) ==> a == b
  {
  }

  /**
   * The select box hands back a label; this is the label-to-variant
   * reading of it. It succeeds exactly on the nine labels.
   */
  function BankFromLabel(s: string): (r: Option<Bank>)
    ensures r.Some? ==> BankLabel(r.value) == s
    ensures r.None? ==> forall b :: BankLabel(b) != s
  {
    if s == "Banco Popular" then Some(Popular)
    else if s == "Banco Occidente" then Some(Occidente)
    else if s == "Davivienda" then Some(Davivienda)
    else if s == "Banco Bogota" then Some(Bogota)
    else if s == "Banco BBVA" then Some(Bbva)
    else if s == "Bancoomeva" then Some(Bancoomeva)
    else if s == "Bancolombia" then Some(Bancolombia)
    else if s == "AvVillas" then Some(AvVillas)
    else if s == "Banco Agrario" then Some(Agrario)
    else None
  }

  lemma BankLabelRoundTrip(b: Bank)
    ensures BankFromLabel(BankLabel(b)) == Some(b)
  {
  }

  /** Distinct banks carry distinct labels, so a label names one bank. */
  lemma BankLabelInjective(a: Bank, b: Bank)
    ensures BankLabel(a) == BankLabel(b) ==> a == b
  {
    BankLabelRoundTrip(a);
    BankLabelRoundTrip(b);
  }

  /** Export-time owner tag; each label is the variant's own name. */
  datatype EntityOption = GVAL | VEDU

  function EntityLabel(e: EntityOption): string
  {
    match e
    case GVAL => "GVAL"
    case VEDU => "VEDU"
  }

  function EntityFromLabel(s: string): (r: Option<EntityOption>)
    ensures r.Some? ==> EntityLabel(r.value) == s
    ensures r.None? ==> forall e :: EntityLabel(e) != s
  {
    if s == "GVAL" then Some(GVAL)
    else if s == "VEDU" then Some(VEDU)
    else None
  }

  lemma EntityLabelRoundTrip(e: EntityOption)
    ensures EntityFromLabel(EntityLabel(e)) == Some(e)
  {
  }
}
